/** Live log sources (secwatch/logsources.py) against what a restart rebuilds
    (secwatch/config.py). */
module LogSources {
  import opened Collections

  const MAX_MANAGED := 32

  /** A source as the dashboard saves it. */
  datatype Item = Item(name: string, path: string, kind: string, regex: string)

  /** A source that is being watched. */
  datatype Source = Source(name: string, path: string, kind: string, regex: string, primary: bool, managed: bool)

  /** An entry of `log_sources` in the site configuration; any field may be missing. */
  datatype Yaml = Yaml(name: Option<string>, path: Option<string>, kind: Option<string>, regex: Option<string>)

  function Or<T>(o: Option<T>, default: T): T { if o.Some? then o.value else default }

  function FromYaml(y: Yaml): seq<Source> {
    if Or(y.path, "") == "" then []
    else
      var name := if Or(y.name, "") != "" then y.name.value else y.path.value;
      [Source(name, y.path.value, Or(y.kind, "traefik"), Or(y.regex, ""), false, false)]
  }

  function Usable(ys: seq<Yaml>): seq<Source>
    decreases |ys|
  {
    if ys == [] then [] else Usable(ys[..|ys| - 1]) + FromYaml(ys[|ys| - 1])
  }

  /** The sources of the site configuration, or the single access log; the first one is
      the primary. */
  function Base(ys: seq<Yaml>, single: Source): (out: seq<Source>)
    ensures out != [] && out[0].primary
  {
    var usable := if Usable(ys) != [] then Usable(ys) else [single];
    usable[0 := usable[0].(primary := true)]
  }

  function Live(i: Item): Source {
    Source(if i.name != "" then i.name else i.path, i.path, i.kind, i.regex, false, true)
  }

  function Paths(sources: seq<Source>): set<string> { set i | 0 <= i < |sources| :: sources[i].path }

  function ItemPaths(items: seq<Item>): set<string> { set i | 0 <= i < |items| :: items[i].path }

  function WithManaged(out: seq<Source>, items: seq<Item>): seq<Source>
    decreases |items|
  {
    if items == [] then out
    else
      var before, item := WithManaged(out, items[..|items| - 1]), items[|items| - 1];
      if item.path == "" || item.path in Paths(before) then before else before + [Live(item)]
  }

  /** `_build_log_sources`. */
  function Built(ys: seq<Yaml>, single: Source, items: seq<Item>): seq<Source> {
    WithManaged(Base(ys, single), items)
  }

  method BuildLogSources(ys: seq<Yaml>, single: Source, items: seq<Item>) returns (out: seq<Source>)
    ensures out == Built(ys, single, items)
  {
    out := [];
    for i := 0 to |ys|
      invariant out == Usable(ys[..i])
    {
      assert ys[..i + 1][..i] == ys[..i];
      var y := ys[i];
      if Or(y.path, "") != "" {
        var name := if Or(y.name, "") != "" then y.name.value else y.path.value;
        out := out + [Source(name, y.path.value, Or(y.kind, "traefik"), Or(y.regex, ""), false, false)];
      }
    }
    assert ys[..|ys|] == ys;
    if out == [] {
      out := [single];
    }
    out := out[0 := out[0].(primary := true)];
    out := AppendManaged(out, items);
  }

  /** The second loop of `_build_log_sources`. */
  method AppendManaged(base: seq<Source>, items: seq<Item>) returns (out: seq<Source>)
    ensures out == WithManaged(base, items)
  {
    out := base;
    var seen := Paths(out);
    for i := 0 to |items|
      invariant out == WithManaged(base, items[..i]) && seen == Paths(out)
    {
      assert items[..i + 1][..i] == items[..i];
      var item := items[i];
      if !(item.path == "" || item.path in seen) {
        PathsAppend(out, Live(item));
        seen := seen + {item.path};
        out := out + [Live(item)];
      }
    }
    assert items[..|items|] == items;
  }

  // ---- the manager

  function Without(sources: seq<Source>, path: string): seq<Source>
    decreases |sources|
  {
    if sources == [] then []
    else
      var before, last := Without(sources[..|sources| - 1], path), sources[|sources| - 1];
      if last.path != path then before + [last] else before
  }

  function ItemsWithout(items: seq<Item>, path: string): seq<Item>
    decreases |items|
  {
    if items == [] then []
    else
      var before, last := ItemsWithout(items[..|items| - 1], path), items[|items| - 1];
      if last.path != path then before + [last] else before
  }

  /** What is watched, what is saved, and the paths with a running tail task. */
  datatype State = State(live: seq<Source>, saved: seq<Item>, tailed: set<string>)

  /** `add`, once the source passed validation. */
  function AfterAdd(s: State, item: Item): (State, bool) {
    if item.path in Paths(s.live) + ItemPaths(s.saved) || |s.saved| >= MAX_MANAGED then (s, false)
    else (State(s.live + [Source(item.name, item.path, item.kind, item.regex, false, true)], s.saved + [item],
                s.tailed + {item.path}), true)
  }

  /** `remove`. */
  function AfterRemove(s: State, path: string): (State, bool) {
    var kept := ItemsWithout(s.saved, path);
    if |kept| == |s.saved| then (s, false)
    else (State(Without(s.live, path), kept, s.tailed - {path}), true)
  }

  /** What a restart makes of the saved list. */
  function Restarted(ys: seq<Yaml>, single: Source, saved: seq<Item>): State {
    var live := Built(ys, single, saved);
    State(live, saved, Paths(live))
  }

  /** An addition succeeds if and only if the path is new and fewer than 32 are saved; then the
      source is watched last, saved last and tailed, and otherwise nothing changes. */
  lemma AddedIff(s: State, item: Item)
    ensures var (s', ok) := AfterAdd(s, item);
            && (ok <==> (forall i :: 0 <= i < |s.live| ==> s.live[i].path != item.path)
                        && (forall i :: 0 <= i < |s.saved| ==> s.saved[i].path != item.path) && |s.saved| < 32)
            && (ok ==>
                  && |s'.live| == |s.live| + 1 && s'.live[..|s.live|] == s.live && s'.live[|s.live|].path == item.path
                  && s'.saved == s.saved + [item] && s'.tailed == s.tailed + {item.path})
            && (!ok ==> s' == s)
  {
    assert item.path in Paths(s.live) <==> exists i :: 0 <= i < |s.live| && s.live[i].path == item.path;
    assert item.path in ItemPaths(s.saved) <==> exists i :: 0 <= i < |s.saved| && s.saved[i].path == item.path;
  }

  /** A removal succeeds if and only if the path is saved; then no source of it is watched,
      saved or tailed, and otherwise nothing changes. */
  lemma RemovedIff(s: State, path: string)
    ensures var (s', ok) := AfterRemove(s, path);
            && (ok <==> exists i :: 0 <= i < |s.saved| && s.saved[i].path == path)
            && (ok ==> path !in Paths(s'.live) && path !in ItemPaths(s'.saved) && s'.tailed == s.tailed - {path})
            && (!ok ==> s' == s)
  {
    KeptAreFewer(s.saved, path);
    KeptAreOthers(s.saved, path);
    WithoutPaths(s.live, path);
    assert path in ItemPaths(s.saved) <==> exists i :: 0 <= i < |s.saved| && s.saved[i].path == path;
  }

  lemma {:induction false} KeptAreOthers(items: seq<Item>, path: string)
    ensures forall i :: 0 <= i < |ItemsWithout(items, path)| ==> ItemsWithout(items, path)[i].path != path
    ensures (forall i :: 0 <= i < |items| ==> items[i].path != path) ==> ItemsWithout(items, path) == items
    decreases |items|
  {
    if items != [] {
      KeptAreOthers(items[..|items| - 1], path);
    }
  }

  function HasPath(): Yaml -> bool { (y: Yaml) => y.path != None && y.path != Some("") }

  /** The `i`-th configured entry, if it has a path, is watched in its place among those that
      have one: with its own type and pattern, under its own name or else its path. */
  lemma {:induction false} ConfiguredAt(ys: seq<Yaml>, i: nat)
    requires i < |ys| && HasPath()(ys[i])
    ensures |Usable(ys)| == CountWhere(ys, HasPath()) && CountWhere(ys[..i], HasPath()) < |Usable(ys)|
    ensures Usable(ys)[CountWhere(ys[..i], HasPath())]
         == Source(if ys[i].name == None || ys[i].name == Some("") then ys[i].path.value else ys[i].name.value,
                   ys[i].path.value,
                   if ys[i].kind == None then "traefik" else ys[i].kind.value,
                   if ys[i].regex == None then "" else ys[i].regex.value, false, false)
    decreases |ys|
  {
    var front, last := ys[..|ys| - 1], ys[|ys| - 1];
    UsableCount(front);
    UsableCount(ys);
    CountWhereSnoc(front, last, HasPath());
    assert ys == front + [last];
    if i < |front| {
      ConfiguredAt(front, i);
      assert front[..i] == ys[..i];
    } else {
      assert ys[..i] == front;
    }
  }

  lemma {:induction false} UsableCount(ys: seq<Yaml>)
    ensures |Usable(ys)| == CountWhere(ys, HasPath())
    decreases |ys|
  {
    if ys != [] {
      var front, last := ys[..|ys| - 1], ys[|ys| - 1];
      UsableCount(front);
      CountWhereSnoc(front, last, HasPath());
      assert ys == front + [last];
    }
  }

  /** The first watched source, and no other configured one, is the primary; without any
      configured path it is the single access log. */
  lemma BaseIs(ys: seq<Yaml>, single: Source)
    ensures CountWhere(ys, HasPath()) == 0 ==> Base(ys, single) == [single.(primary := true)]
    ensures CountWhere(ys, HasPath()) > 0 ==>
              && |Base(ys, single)| == |Usable(ys)| && Base(ys, single)[0] == Usable(ys)[0].(primary := true)
              && forall k :: 0 < k < |Usable(ys)| ==> Base(ys, single)[k] == Usable(ys)[k]
  {
    UsableCount(ys);
  }

  /** A validated source has a name and an absolute path. */
  predicate Proper(item: Item) { item.name != "" && item.path != "" }

  lemma {:induction false} WithoutPaths(sources: seq<Source>, path: string)
    ensures Paths(Without(sources, path)) == Paths(sources) - {path}
    ensures path !in Paths(sources) ==> Without(sources, path) == sources
    decreases |sources|
  {
    if sources != [] {
      var front, last := sources[..|sources| - 1], sources[|sources| - 1];
      WithoutPaths(front, path);
      assert sources == front + [last];
      PathsAppend(front, last);
      PathsAppend(Without(front, path), last);
    }
  }

  lemma PathsAppend(sources: seq<Source>, s: Source)
    ensures Paths(sources + [s]) == Paths(sources) + {s.path}
  {
    assert (sources + [s])[|sources|] == s;
    assert forall i :: 0 <= i < |sources| ==> (sources + [s])[i] == sources[i];
  }

  lemma WithoutAppend(sources: seq<Source>, s: Source, path: string)
    ensures Without(sources + [s], path) == if s.path != path then Without(sources, path) + [s]
            else Without(sources, path)
  {
    assert (sources + [s])[..|sources|] == sources;
  }

  lemma {:induction false} ItemsWithoutAll(items: seq<Item>, path: string)
    ensures |ItemsWithout(items, path)| <= |items|
    ensures |ItemsWithout(items, path)| == |items| <==> path !in ItemPaths(items)
    ensures ItemPaths(ItemsWithout(items, path)) <= ItemPaths(items)
    decreases |items|
  {
    if items != [] {
      var front, last := items[..|items| - 1], items[|items| - 1];
      ItemsWithoutAll(front, path);
      assert items == front + [last];
      assert path in ItemPaths(items) <==> path in ItemPaths(front) || last.path == path;
      var kept := ItemsWithout(items, path);
      forall i | 0 <= i < |kept| ensures kept[i].path in ItemPaths(items) {
        if i < |ItemsWithout(front, path)| {
          assert kept[i].path in ItemPaths(ItemsWithout(front, path));
          var k :| 0 <= k < |front| && front[k].path == kept[i].path;
          assert items[k] == front[k];
        } else {
          assert items[|front|].path == kept[i].path;
        }
      }
    }
  }

  /** The configured sources come first, as they are. */
  lemma {:induction false} BaseFirst(out: seq<Source>, items: seq<Item>)
    ensures out <= WithManaged(out, items) && Paths(out) <= Paths(WithManaged(out, items))
    decreases |items|
  {
    if items != [] {
      BaseFirst(out, items[..|items| - 1]);
      PathsAppend(WithManaged(out, items[..|items| - 1]), Live(items[|items| - 1]));
    }
  }

  lemma WithManagedAppend(out: seq<Source>, items: seq<Item>, item: Item)
    ensures var before := WithManaged(out, items);
            WithManaged(out, items + [item]) == if item.path == "" || item.path in Paths(before) then before
              else before + [Live(item)]
  {
    assert (items + [item])[..|items|] == items;
  }

  /** Filtering the saved list and filtering the built list agree off the configured paths. */
  lemma {:induction false} BuiltWithout(out: seq<Source>, items: seq<Item>, path: string)
    requires path !in Paths(out)
    ensures Without(WithManaged(out, items), path) == WithManaged(out, ItemsWithout(items, path))
    decreases |items|
  {
    if items == [] {
      WithoutPaths(out, path);
    } else {
      var front, last := items[..|items| - 1], items[|items| - 1];
      var before := WithManaged(out, front);
      BuiltWithout(out, front, path);
      WithoutPaths(before, path);
      WithoutAppend(before, Live(last), path);
      WithManagedAppend(out, ItemsWithout(front, path), last);
    }
  }

  /** Adding a source leaves the live list as a restart would rebuild it. */
  lemma AddConsistent(ys: seq<Yaml>, single: Source, s: State, item: Item)
    requires s == Restarted(ys, single, s.saved) && Proper(item)
    ensures var s' := AfterAdd(s, item).0; s' == Restarted(ys, single, s'.saved)
  {
    if AfterAdd(s, item).1 {
      assert (s.saved + [item])[..|s.saved|] == s.saved;
      PathsAppend(s.live, Live(item));
    }
  }

  /** Removing a source does so exactly when its path is not one of the configured ones. */
  lemma RemoveConsistentIff(ys: seq<Yaml>, single: Source, s: State, path: string)
    requires s == Restarted(ys, single, s.saved) && AfterRemove(s, path).1
    ensures var s' := AfterRemove(s, path).0;
            s' == Restarted(ys, single, s'.saved) <==> path !in Paths(Base(ys, single))
  {
    var base := Base(ys, single);
    WithoutPaths(s.live, path);
    if path !in Paths(base) {
      BuiltWithout(base, s.saved, path);
    } else {
      BaseFirst(base, ItemsWithout(s.saved, path));
    }
  }

  // ---- runs

  datatype Op = Add(item: Item) | Remove(path: string) | Restart

  function AfterOp(ys: seq<Yaml>, single: Source, s: State, op: Op): State {
    match op
    case Add(item) => AfterAdd(s, item).0
    case Remove(path) => AfterRemove(s, path).0
    case Restart => Restarted(ys, single, s.saved)
  }

  function AfterOps(ys: seq<Yaml>, single: Source, s: State, ops: seq<Op>): State
    decreases |ops|
  {
    if ops == [] then s else AfterOp(ys, single, AfterOps(ys, single, s, ops[..|ops| - 1]), ops[|ops| - 1])
  }

  ghost predicate AllProper(ops: seq<Op>) {
    forall i :: 0 <= i < |ops| && ops[i].Add? ==> Proper(ops[i].item)
  }

  ghost predicate Apart(ys: seq<Yaml>, single: Source, saved: seq<Item>) {
    forall i :: 0 <= i < |saved| ==> saved[i].path !in Paths(Base(ys, single))
  }

  lemma OpKeeps(ys: seq<Yaml>, single: Source, s: State, op: Op)
    requires s == Restarted(ys, single, s.saved) && Apart(ys, single, s.saved) && (op.Add? ==> Proper(op.item))
    ensures var s' := AfterOp(ys, single, s, op);
            && s' == Restarted(ys, single, s'.saved) && Apart(ys, single, s'.saved)
            && (|s.saved| <= MAX_MANAGED ==> |s'.saved| <= MAX_MANAGED)
  {
    match op
    case Add(item) =>
      AddConsistent(ys, single, s, item);
      BaseFirst(Base(ys, single), s.saved);
    case Remove(path) =>
      RemoveKeeps(ys, single, s, path);
    case Restart =>
  }

  lemma RemoveKeeps(ys: seq<Yaml>, single: Source, s: State, path: string)
    requires s == Restarted(ys, single, s.saved) && Apart(ys, single, s.saved)
    ensures var s' := AfterRemove(s, path).0;
            s' == Restarted(ys, single, s'.saved) && Apart(ys, single, s'.saved) && |s'.saved| <= |s.saved|
  {
    ItemsWithoutAll(s.saved, path);
    var kept := ItemsWithout(s.saved, path);
    forall i | 0 <= i < |kept| ensures kept[i].path !in Paths(Base(ys, single)) {
      assert kept[i].path in ItemPaths(kept);
    }
    if AfterRemove(s, path).1 {
      RemoveConsistentIff(ys, single, s, path);
    }
  }

  /** If the saved paths are none of the configured ones to begin with, then after any
      additions, removals and restarts what is watched, in content and order, and what is
      tailed is what a restart would make of the saved list, and that list stays within
      its limit. */
  lemma {:induction false} LiveEqualsRestart(ys: seq<Yaml>, single: Source, saved: seq<Item>, ops: seq<Op>)
    requires Apart(ys, single, saved) && AllProper(ops)
    ensures var s := AfterOps(ys, single, Restarted(ys, single, saved), ops);
            && s == Restarted(ys, single, s.saved) && Apart(ys, single, s.saved)
            && (|saved| <= MAX_MANAGED ==> |s.saved| <= MAX_MANAGED)
    decreases |ops|
  {
    if ops != [] {
      LiveEqualsRestart(ys, single, saved, ops[..|ops| - 1]);
      OpKeeps(ys, single, AfterOps(ys, single, Restarted(ys, single, saved), ops[..|ops| - 1]), ops[|ops| - 1]);
    }
  }

  lemma {:induction false} ManagedExtends(base: seq<Source>, items: seq<Item>)
    ensures base <= WithManaged(base, items)
    decreases |items|
  {
    if items != [] {
      ManagedExtends(base, items[..|items| - 1]);
    }
  }

  lemma {:induction false} KeptAreFewer(items: seq<Item>, path: string)
    ensures |ItemsWithout(items, path)| <= |items|
    ensures path in ItemPaths(items) ==> |ItemsWithout(items, path)| < |items|
    decreases |items|
  {
    if items != [] {
      var front := items[..|items| - 1];
      KeptAreFewer(front, path);
      if path in ItemPaths(items) && items[|items| - 1].path != path {
        var i :| 0 <= i < |items| && items[i].path == path;
        assert front[i].path == path;
      }
    }
  }

  /** When a saved path is also configured, removing it stops the configured sources of that
      path, although they stay configured: a restart watches and tails them again. */
  lemma RemoveHitsConfigured(ys: seq<Yaml>, single: Source, saved: seq<Item>, path: string)
    requires path in Paths(Base(ys, single)) && path in ItemPaths(saved)
    ensures var (s', ok) := AfterRemove(Restarted(ys, single, saved), path);
            && ok && path !in Paths(s'.live) && path !in s'.tailed
            && path in Paths(Restarted(ys, single, s'.saved).live) && path in Restarted(ys, single, s'.saved).tailed
  {
    var s := Restarted(ys, single, saved);
    var base, kept := Base(ys, single), ItemsWithout(saved, path);
    KeptAreFewer(saved, path);
    WithoutPaths(s.live, path);
    ManagedExtends(base, kept);
    var i :| 0 <= i < |base| && base[i].path == path;
    assert WithManaged(base, kept)[i] == base[i];
  }

  class Manager {
    var live: seq<Source>
    var saved: seq<Item>
    var tailed: set<string>

    ghost function Whole(): State
      reads this
    {
      State(live, saved, tailed)
    }

    /** At boot every source is watched, and its tail task registered. */
    constructor (ys: seq<Yaml>, single: Source, items: seq<Item>)
      ensures Whole() == Restarted(ys, single, items)
    {
      live, saved, tailed := [], items, {};
      new;
      var sources := BuildLogSources(ys, single, items);
      live, tailed := sources, Paths(sources);
    }

    /** `add`; `checked` is what validation made of the input, if it passed. */
    method Add(checked: Option<Item>) returns (ok: bool)
      modifies this
      ensures if checked.None? then Whole() == old(Whole()) && !ok
              else (Whole(), ok) == AfterAdd(old(Whole()), checked.value)
    {
      ok := false;
      if checked.Some? {
        var src := checked.value;
        if !(src.path in Paths(live) + ItemPaths(saved)) && |saved| < MAX_MANAGED {
          tailed := tailed + {src.path};
          live := live + [Source(src.name, src.path, src.kind, src.regex, false, true)];
          saved := saved + [src];
          ok := true;
        }
      }
    }

    /** `remove`: the saved list and the live list are filtered apart. */
    method Remove(path: string) returns (ok: bool)
      modifies this
      ensures (Whole(), ok) == AfterRemove(old(Whole()), path)
    {
      var kept := [];
      for i := 0 to |saved|
        invariant kept == ItemsWithout(saved[..i], path) && unchanged(this)
      {
        assert saved[..i + 1][..i] == saved[..i];
        if saved[i].path != path {
          kept := kept + [saved[i]];
        }
      }
      assert saved[..|saved|] == saved;
      ok := |kept| != |saved|;
      if ok {
        saved := kept;
        var left := [];
        for i := 0 to |live|
          invariant left == Without(live[..i], path) && live == old(live) && tailed == old(tailed) && saved == kept
        {
          assert live[..i + 1][..i] == live[..i];
          if live[i].path != path {
            left := left + [live[i]];
          }
        }
        assert live[..|live|] == live;
        live := left;
        tailed := tailed - {path};
      }
    }
  }
}
