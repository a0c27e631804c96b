/** When rules with one name may share a deque or a dictionary (secwatch/detect.py): the
    store of a rule tells its own hits, on every run, exactly when no other rule disturbs
    it and its window is at most an hour. */
module SharedNames {
  import opened Collections
  import opened Windows
  import opened Detect
  import opened DetectExact
  import opened Alerts
  import opened Engine
  import opened Forgetting

  function Deque(w: Tracks, r: EndpointRule, ip: string): seq<Time> { Get(w.win, (r.name, ip), []) }

  function Ids(w: Tracks, r: EndpointRule, ip: string): map<string, Time> { Get(w.ids, (r.name, ip), map[]) }

  /** What the store of rule `i` says about the window that ends at `now` is what the
      history says: as many hits, or the same IDs. */
  ghost predicate Tells(u: Setup, ops: seq<Op>, i: int, ip: string, now: Time)
    requires 0 <= i < |u.cfg.rules|
  {
    var r, since := u.cfg.rules[i], now - u.cfg.rules[i].window as real;
    && (Windowed(r) ==>
          CountSince(Deque(Run(u, ops).tracks, r, ip), since) == Recount(u.cfg, Fed(ops), Hits(r, ip), since))
    && (r.kind == Enumeration ==>
          (set id | id in Ids(Run(u, ops).tracks, r, ip) && Ids(Run(u, ops).tracks, r, ip)[id] >= since)
          == DistinctSince(Fed(ops), r, ip, since))
  }

  ghost predicate AlwaysTells(u: Setup, i: int)
    requires 0 <= i < |u.cfg.rules|
  {
    forall ops, ip, now :: Ordered(ops) && Clock(ops) <= now && !u.cfg.trusted(ip) ==> Tells(u, ops, i, ip, now)
  }

  lemma SoundTells(u: Setup, ops: seq<Op>, i: nat, ip: string, now: Time)
    requires i < |u.cfg.rules| && Sound(u.cfg, i) && Ordered(ops) && Clock(ops) <= now && !u.cfg.trusted(ip)
    ensures Tells(u, ops, i, ip, now)
  {
    RunKeepsTracks(u, ops);
    var r, since := u.cfg.rules[i], now - u.cfg.rules[i].window as real;
    assert RuleAgrees(u.cfg, Run(u, ops).tracks, Fed(ops), r, ip, Clock(ops));
    if r.kind == Enumeration {
      var d := Ids(Run(u, ops).tracks, r, ip);
      forall id ensures id in DistinctSince(Fed(ops), r, ip, since) <==> id in d && d[id] >= since {
      }
    }
  }

  // ---- one record, and what it leaves in the stores

  function From(rec: Record, ip: string): Record { rec.(ip := ip) }

  lemma SameHit(r: EndpointRule, rec: Record, ip: string)
    ensures Fires(r, From(rec, ip)) == Fires(r, rec) && Token(r, From(rec, ip)) == Token(r, rec)
  {
  }

  function Once(rec: Record): seq<Op> { [Feed(Sighting(1.0, rec), None, {})] }

  /** Windows are durations, and somebody is not trusted. */
  ghost predicate Usual(u: Setup, someone: string) {
    !u.cfg.trusted(someone) && forall i :: 0 <= i < |u.cfg.rules| ==> u.cfg.rules[i].window >= 0
  }

  lemma OnceFed(rec: Record)
    ensures Ordered(Once(rec)) && Clock(Once(rec)) == 1.0 && Fed(Once(rec)) == [Sighting(1.0, rec)]
  {
    assert Once(rec)[..0] == [];
    assert Fed(Once(rec)) == [] + [Sighting(1.0, rec)];
  }

  /** The engine after the per-IP part of its first record. */
  function FirstTouch(u: Setup, rec: Record): Tracks {
    NO_TRACKS.(ips := NO_TRACKS.ips[rec.ip := Updated(u.cfg, NO_TRACKS, rec, 1.0)])
  }

  lemma OnceSteps(u: Setup, rec: Record)
    ensures Run(u, Once(rec)) == Step(u, BOOT, Feed(Sighting(1.0, rec), None, {}))
  {
    assert Once(rec)[..0] == [];
  }

  lemma OnceRun(u: Setup, rec: Record)
    requires !u.cfg.trusted(rec.ip)
    ensures Run(u, Once(rec)).tracks == CheckRules(u.cfg.rules, FirstTouch(u, rec), rec, 1.0, |u.cfg.rules|).0
  {
    OnceSteps(u, rec);
    var o := Sighting(1.0, rec);
    assert Observe(u.cfg, NO_TRACKS, None, rec, 1.0).0 == Endpoints(u.cfg, NO_TRACKS, rec, 1.0).0;
    assert Step(u, BOOT, Feed(o, None, {})).tracks == Observe(u.cfg, NO_TRACKS, None, rec, 1.0).0;
  }

  /** How many of the first `k` rules enter a stamp into the deque of a rule. */
  function Entries(rules: seq<EndpointRule>, r: EndpointRule, rec: Record, k: nat): nat
    requires k <= |rules|
  {
    if k == 0 then 0
    else Entries(rules, r, rec, k - 1) + (if Shares(rules[k - 1], r) && Fires(rules[k - 1], rec) then 1 else 0)
  }

  function Copies(n: nat): seq<Time> { seq(n, i => 1.0) }

  lemma CopiesNext(n: nat, cutoff: Time)
    requires cutoff <= 1.0
    ensures Trimmed(Copies(n) + [1.0], cutoff) == Copies(n + 1)
  {
    assert Copies(n) + [1.0] == Copies(n + 1);
  }

  lemma {:induction false} CopiesCounted(n: nat, since: Time)
    requires since <= 1.0
    ensures CountSince(Copies(n), since) == n
  {
    if n > 0 {
      CopiesCounted(n - 1, since);
      assert Copies(n)[..n - 1] == Copies(n - 1);
    }
  }

  lemma {:induction false} FirstDeque(rules: seq<EndpointRule>, w: Tracks, rec: Record, r: EndpointRule, k: nat)
    requires k <= |rules| && Windowed(r) && w.win == map[] && forall j :: 0 <= j < |rules| ==> rules[j].window >= 0
    ensures Deque(CheckRules(rules, w, rec, 1.0, k).0, r, rec.ip) == Copies(Entries(rules, r, rec, k))
  {
    if k > 0 {
      FirstDeque(rules, w, rec, r, k - 1);
      CheckRuleFrame(rules[k - 1], CheckRules(rules, w, rec, 1.0, k - 1).0, rec, 1.0, r, rec.ip);
      CopiesNext(Entries(rules, r, rec, k - 1), 1.0 - rules[k - 1].window as real);
    }
  }

  lemma {:induction false} EntriesAtLeast(rules: seq<EndpointRule>, r: EndpointRule, rec: Record, k: nat, j: nat)
    requires j < k <= |rules| && Shares(rules[j], r) && Fires(rules[j], rec)
    ensures Entries(rules, r, rec, k) >= 1
  {
    if j < k - 1 {
      EntriesAtLeast(rules, r, rec, k - 1, j);
    }
  }

  lemma {:induction false} EntriesOfTwo(rules: seq<EndpointRule>, r: EndpointRule, rec: Record, k: nat, i: nat, j: nat)
    requires i < j < k <= |rules| && Shares(rules[i], r) && Fires(rules[i], rec) && Shares(rules[j], r)
    requires Fires(rules[j], rec)
    ensures Entries(rules, r, rec, k) >= 2
  {
    if j < k - 1 {
      EntriesOfTwo(rules, r, rec, k - 1, i, j);
    } else {
      EntriesAtLeast(rules, r, rec, j, i);
    }
  }

  /** A record that another rule of the name hits leaves more stamps than the rule has hits. */
  lemma ExtraStamps(u: Setup, i: nat, j: nat, rec: Record)
    requires Usual(u, rec.ip) && i < |u.cfg.rules| && j < |u.cfg.rules| && i != j && Windowed(u.cfg.rules[i])
    requires Shares(u.cfg.rules[j], u.cfg.rules[i]) && Fires(u.cfg.rules[j], rec)
    ensures var r := u.cfg.rules[i];
            && Deque(Run(u, Once(rec)).tracks, r, rec.ip) == Copies(Entries(u.cfg.rules, r, rec, |u.cfg.rules|))
            && Entries(u.cfg.rules, r, rec, |u.cfg.rules|) > (if Fires(r, rec) then 1 else 0)
  {
    var rules, r := u.cfg.rules, u.cfg.rules[i];
    OnceRun(u, rec);
    FirstDeque(rules, FirstTouch(u, rec), rec, r, |rules|);
    if !Fires(r, rec) {
      EntriesAtLeast(rules, r, rec, |rules|, j);
    } else if i < j {
      EntriesOfTwo(rules, r, rec, |rules|, i, j);
    } else {
      EntriesOfTwo(rules, r, rec, |rules|, j, i);
    }
  }

  lemma OneHit(cfg: Config, r: EndpointRule, rec: Record, since: Time)
    requires since <= 1.0
    ensures Recount(cfg, [Sighting(1.0, rec)], Hits(r, rec.ip), since) == (if Fires(r, rec) then 1 else 0)
  {
    RecountAfter(cfg, [], Sighting(1.0, rec), Hits(r, rec.ip), since);
    assert [] + [Sighting(1.0, rec)] == [Sighting(1.0, rec)];
  }

  lemma ExtraStampsTell(u: Setup, i: nat, j: nat, rec: Record)
    requires Usual(u, rec.ip) && i < |u.cfg.rules| && j < |u.cfg.rules| && i != j && Windowed(u.cfg.rules[i])
    requires Shares(u.cfg.rules[j], u.cfg.rules[i]) && Fires(u.cfg.rules[j], rec)
    ensures !AlwaysTells(u, i)
  {
    var r := u.cfg.rules[i];
    OnceFed(rec);
    ExtraStamps(u, i, j, rec);
    CopiesCounted(Entries(u.cfg.rules, r, rec, |u.cfg.rules|), 1.0 - r.window as real);
    OneHit(u.cfg, r, rec, 1.0 - r.window as real);
    assert !Tells(u, Once(rec), i, rec.ip, 1.0);
  }

  // ---- an ID of another rule

  /** Every ID is stored at the first moment. */
  ghost predicate AtFirst(d: map<string, Time>) { forall id :: id in d ==> d[id] == 1.0 }

  lemma FirstIdsTurn(other: EndpointRule, w: Tracks, rec: Record, r: EndpointRule)
    requires r.kind == Enumeration && Shares(other, r) && Fires(other, rec) && other.window >= 0
    requires AtFirst(Ids(w, r, rec.ip))
    ensures var d, d' := Ids(w, r, rec.ip), Ids(CheckRule(other, w, rec, 1.0).0, r, rec.ip);
            AtFirst(d') && d.Keys <= d'.Keys && Token(other, rec).value in d'
  {
  }

  lemma {:induction false} FirstIds(rules: seq<EndpointRule>, w: Tracks, rec: Record, r: EndpointRule, k: nat, j: nat)
    requires j < |rules| && k <= |rules| && r.kind == Enumeration && w.ids == map[]
    requires Shares(rules[j], r) && Fires(rules[j], rec)
    requires forall l :: 0 <= l < |rules| ==> rules[l].window >= 0
    ensures var d := Ids(CheckRules(rules, w, rec, 1.0, k).0, r, rec.ip);
            AtFirst(d) && (j < k ==> Token(rules[j], rec).value in d)
  {
    if k > 0 {
      var before := CheckRules(rules, w, rec, 1.0, k - 1).0;
      FirstIds(rules, w, rec, r, k - 1, j);
      if Shares(rules[k - 1], r) && Fires(rules[k - 1], rec) {
        FirstIdsTurn(rules[k - 1], before, rec, r);
      } else {
        CheckRuleFrame(rules[k - 1], before, rec, 1.0, r, rec.ip);
      }
    }
  }

  lemma ForeignTells(u: Setup, i: nat, j: nat, rec: Record)
    requires Usual(u, rec.ip) && i < |u.cfg.rules| && j < |u.cfg.rules| && u.cfg.rules[i].kind == Enumeration
    requires Shares(u.cfg.rules[j], u.cfg.rules[i]) && Fires(u.cfg.rules[j], rec)
    requires Token(u.cfg.rules[i], rec) != Token(u.cfg.rules[j], rec)
    ensures !AlwaysTells(u, i)
  {
    var r, id := u.cfg.rules[i], Token(u.cfg.rules[j], rec).value;
    OnceRun(u, rec);
    OnceFed(rec);
    FirstIds(u.cfg.rules, FirstTouch(u, rec), rec, r, |u.cfg.rules|, j);
    DistinctAfter([], Sighting(1.0, rec), r, rec.ip, 1.0 - r.window as real);
    assert [] + [Sighting(1.0, rec)] == [Sighting(1.0, rec)];
    assert id !in DistinctSince([Sighting(1.0, rec)], r, rec.ip, 1.0 - r.window as real);
    assert id in (set x | x in Ids(Run(u, Once(rec)).tracks, r, rec.ip)
                          && Ids(Run(u, Once(rec)).tracks, r, rec.ip)[x] >= 1.0 - r.window as real);
    assert !Tells(u, Once(rec), i, rec.ip, 1.0);
  }

  // ---- a window of more than an hour

  function Quiet(rec: Record): seq<Op> { Once(rec) + [Flush(3601.5, true)] }

  lemma QuietRun(u: Setup, rec: Record)
    ensures Ordered(Quiet(rec)) && Clock(Quiet(rec)) == 3601.5 && Fed(Quiet(rec)) == [Sighting(1.0, rec)]
    ensures Run(u, Quiet(rec)).tracks.win == map[] && Run(u, Quiet(rec)).tracks.ids == map[]
  {
    OnceFed(rec);
    OrderedMore(Once(rec), Flush(3601.5, true));
    HourForgets(u, Once(rec), 3601.5);
    assert Quiet(rec)[..|Once(rec)|] == Once(rec);
  }

  lemma OneId(r: EndpointRule, rec: Record, since: Time)
    requires Fires(r, rec) && since <= 1.0
    ensures DistinctSince([Sighting(1.0, rec)], r, rec.ip, since) != {}
  {
    assert [Sighting(1.0, rec)][0].at >= since;
    assert r.token(rec.path).value in DistinctSince([Sighting(1.0, rec)], r, rec.ip, since);
  }

  lemma LongWindowTells(u: Setup, i: nat, rec: Record)
    requires Usual(u, rec.ip) && i < |u.cfg.rules| && Tracked(u.cfg.rules[i]) && Fires(u.cfg.rules[i], rec)
    requires u.cfg.rules[i].window > 3600
    ensures !AlwaysTells(u, i)
  {
    var r, since := u.cfg.rules[i], 3601.75 - u.cfg.rules[i].window as real;
    QuietRun(u, rec);
    OneHit(u.cfg, r, rec, since);
    OneId(r, rec, since);
    assert !Tells(u, Quiet(rec), i, rec.ip, 3601.75);
  }

  // ---- a purge that comes too early: one ID, a pause, more IDs than are kept unpurged

  /** If the first ID is still there, it has its first stamp, and so have all that were fed
      since a later one. */
  ghost predicate Pending(d: map<string, Time>, first: string, since: set<string>) {
    first in d ==> d[first] <= 1.0 && forall id :: id in since ==> id in d && d[id] >= 1.0
  }

  /** No other rule enters foreign IDs. */
  ghost predicate AllOwn(u: Setup, i: int)
    requires 0 <= i < |u.cfg.rules|
  {
    forall j :: 0 <= j < |u.cfg.rules| && Shares(u.cfg.rules[j], u.cfg.rules[i]) ==>
      !Foreign(u.cfg.rules[j], u.cfg.rules[i])
  }

  lemma PurgePending(e: map<string, Time>, first: string, since: set<string>, cutoff: Time)
    requires Pending(e, first, since)
    ensures Pending(Purged(e, cutoff), first, since)
  {
  }

  /** The turn of a rule that shares the dictionary, at `at`. */
  lemma PendingTurn(other: EndpointRule, r: EndpointRule, w: Tracks, rec: Record, at: Time, first: string,
                    since: set<string>)
    requires r.kind == Enumeration && Shares(other, r) && Fires(other, rec) && Token(other, rec) != Some(first)
    requires Pending(Ids(w, r, rec.ip), first, since) && at >= 1.0
    ensures Pending(Ids(CheckRule(other, w, rec, at).0, r, rec.ip), first, since + {Token(other, rec).value})
    ensures first !in Ids(w, r, rec.ip) ==> first !in Ids(CheckRule(other, w, rec, at).0, r, rec.ip)
  {
    var d, id := Ids(w, r, rec.ip), Token(other, rec).value;
    var e := d[id := at];
    assert Pending(e, first, since + {id});
    PurgePending(e, first, since + {id}, at - other.window as real);
  }

  lemma TurnToken(u: Setup, i: nat, k: nat, rec: Record)
    requires i < |u.cfg.rules| && k < |u.cfg.rules| && AllOwn(u, i)
    requires Shares(u.cfg.rules[k], u.cfg.rules[i]) && Fires(u.cfg.rules[k], rec)
    ensures Token(u.cfg.rules[k], rec) == Token(u.cfg.rules[i], rec)
  {
    assert !Foreign(u.cfg.rules[k], u.cfg.rules[i]);
  }

  /** A record of the rule with another ID, as it passes the first `k` rules. */
  lemma {:induction false} PendingRules(u: Setup, i: nat, w: Tracks, rec: Record, at: Time, first: string,
                                        since: set<string>, k: nat)
    requires i < |u.cfg.rules| && u.cfg.rules[i].kind == Enumeration && AllOwn(u, i) && k <= |u.cfg.rules|
    requires Fires(u.cfg.rules[i], rec) && Token(u.cfg.rules[i], rec) != Some(first) && at >= 1.0
    requires Pending(Ids(w, u.cfg.rules[i], rec.ip), first, since)
    ensures var d := Ids(CheckRules(u.cfg.rules, w, rec, at, k).0, u.cfg.rules[i], rec.ip);
            Pending(d, first, since) && (i < k ==> Pending(d, first, since + {Token(u.cfg.rules[i], rec).value}))
  {
    if k > 0 {
      var before, r := CheckRules(u.cfg.rules, w, rec, at, k - 1).0, u.cfg.rules[i];
      PendingRules(u, i, w, rec, at, first, since, k - 1);
      if Shares(u.cfg.rules[k - 1], r) && Fires(u.cfg.rules[k - 1], rec) {
        TurnToken(u, i, k - 1, rec);
        PendingTurn(u.cfg.rules[k - 1], r, before, rec, at, first, since);
      } else {
        CheckRuleFrame(u.cfg.rules[k - 1], before, rec, at, r, rec.ip);
      }
    }
  }

  lemma TooMany(d: map<string, Time>, first: string, since: set<string>, ids: set<string>)
    requires Pending(d, first, since) && first in d && ids <= since + {first} && |ids| > PURGE_ABOVE
    ensures |d| > PURGE_ABOVE
  {
    SubsetCard(ids, d.Keys);
    assert |d| == |d.Keys|;
  }

  /** The turn of the hasty rule, when all IDs but the first were fed since. */
  lemma HastyTurn(other: EndpointRule, r: EndpointRule, w: Tracks, rec: Record, at: Time, first: string,
                  since: set<string>,
                  ids: set<string>)
    requires r.kind == Enumeration && Shares(other, r) && Fires(other, rec) && Token(other, rec) != Some(first)
    requires Pending(Ids(w, r, rec.ip), first, since) && at - other.window as real > 1.0
    requires ids <= since + {first} && |ids| > PURGE_ABOVE && other.window >= 0
    ensures first !in Ids(CheckRule(other, w, rec, at).0, r, rec.ip)
  {
    var d, id := Ids(w, r, rec.ip), Token(other, rec).value;
    var e := d[id := at];
    if first in e {
      assert Pending(e, first, since + {id});
      TooMany(e, first, since + {id}, ids);
    }
  }

  /** After the hasty rule had its turn, the first ID is gone and does not come back. */
  lemma {:induction false} HastyRules(u: Setup, i: nat, j: nat, w: Tracks, rec: Record, at: Time, first: string,
                                      since: set<string>, ids: set<string>, k: nat)
    requires i < |u.cfg.rules| && j < |u.cfg.rules| && u.cfg.rules[i].kind == Enumeration && AllOwn(u, i)
    requires k <= |u.cfg.rules| && Fires(u.cfg.rules[i], rec) && Token(u.cfg.rules[i], rec) != Some(first)
    requires Shares(u.cfg.rules[j], u.cfg.rules[i]) && Fires(u.cfg.rules[j], rec) && u.cfg.rules[j].window >= 0
    requires Pending(Ids(w, u.cfg.rules[i], rec.ip), first, since) && at - u.cfg.rules[j].window as real > 1.0
    requires ids <= since + {first} && |ids| > PURGE_ABOVE
    ensures j < k ==> first !in Ids(CheckRules(u.cfg.rules, w, rec, at, k).0, u.cfg.rules[i], rec.ip)
  {
    if k > 0 {
      var before, r := CheckRules(u.cfg.rules, w, rec, at, k - 1).0, u.cfg.rules[i];
      HastyRules(u, i, j, w, rec, at, first, since, ids, k - 1);
      PendingRules(u, i, w, rec, at, first, since, k - 1);
      if Shares(u.cfg.rules[k - 1], r) && Fires(u.cfg.rules[k - 1], rec) {
        TurnToken(u, i, k - 1, rec);
        if j == k - 1 {
          HastyTurn(u.cfg.rules[k - 1], r, before, rec, at, first, since, ids);
        } else {
          PendingTurn(u.cfg.rules[k - 1], r, before, rec, at, first, since);
        }
      } else {
        CheckRuleFrame(u.cfg.rules[k - 1], before, rec, at, r, rec.ip);
      }
    }
  }

  /** The run that feeds every ID of a set from one address, at one moment. */
  ghost predicate Feeds(u: Setup, ops: seq<Op>, start: Sighting, at: Time, i: int, ip: string, first: string,
                        since: set<string>)
    requires 0 <= i < |u.cfg.rules|
  {
    && Ordered(ops) && 1.0 <= Clock(ops) <= at && |Fed(ops)| > 0 && Fed(ops)[0] == start
    && Pending(Ids(Run(u, ops).tracks, u.cfg.rules[i], ip), first, since)
  }

  lemma FeedsMore(u: Setup, ops: seq<Op>, start: Sighting, at: Time, i: nat, rec: Record, first: string,
                  since: set<string>)
    requires Usual(u, rec.ip) && i < |u.cfg.rules| && u.cfg.rules[i].kind == Enumeration && AllOwn(u, i)
    requires Fires(u.cfg.rules[i], rec) && Token(u.cfg.rules[i], rec) != Some(first)
    requires Feeds(u, ops, start, at, i, rec.ip, first, since)
    ensures Feeds(u, ops + [Feed(Sighting(at, rec), None, {})], start, at, i, rec.ip, first,
                  since + {Token(u.cfg.rules[i], rec).value})
  {
    var o, w := Sighting(at, rec), Run(u, ops).tracks;
    OrderedMore(ops, Feed(o, None, {}));
    RunLast(u, ops, Feed(o, None, {}));
    FedTouch(u, w, o, i);
    PendingRules(u, i, w.(ips := w.ips[rec.ip := Updated(u.cfg, w, rec, at)]), rec, at, first, since, |u.cfg.rules|);
  }

  /** Feeding a record from an untrusted address is a turn of all rules. */
  lemma FedTouch(u: Setup, w: Tracks, o: Sighting, i: nat)
    requires !u.cfg.trusted(o.rec.ip) && i < |u.cfg.rules|
    ensures var entered := w.(ips := w.ips[o.rec.ip := Updated(u.cfg, w, o.rec, o.at)]);
            && Observe(u.cfg, w, None, o.rec, o.at).0 == CheckRules(u.cfg.rules, entered, o.rec, o.at, |u.cfg.rules|).0
            && Ids(entered, u.cfg.rules[i], o.rec.ip) == Ids(w, u.cfg.rules[i], o.rec.ip)
  {
  }

  /** One more ID of the rule. */
  lemma FeedOne(u: Setup, ops: seq<Op>, start: Sighting, at: Time, i: nat, ip: string, first: string,
                since: set<string>,
                id: string) returns (ops': seq<Op>)
    requires Usual(u, ip) && i < |u.cfg.rules| && u.cfg.rules[i].kind == Enumeration && AllOwn(u, i)
    requires Feeds(u, ops, start, at, i, ip, first, since) && id != first && Owns(u.cfg.rules[i], id)
    ensures Feeds(u, ops', start, at, i, ip, first, since + {id})
  {
    var rec :| Token(u.cfg.rules[i], rec) == Some(id);
    SameHit(u.cfg.rules[i], rec, ip);
    FeedsMore(u, ops, start, at, i, From(rec, ip), first, since);
    ops' := ops + [Feed(Sighting(at, From(rec, ip)), None, {})];
  }

  /** As many IDs of the rule as one likes. */
  lemma {:induction false} FeedAll(u: Setup, ops: seq<Op>, start: Sighting, at: Time, i: nat, ip: string, first: string,
                                   since: set<string>, todo: set<string>) returns (ops': seq<Op>)
    requires Usual(u, ip) && i < |u.cfg.rules| && u.cfg.rules[i].kind == Enumeration && AllOwn(u, i)
    requires Feeds(u, ops, start, at, i, ip, first, since)
    requires first !in todo && forall id :: id in todo ==> Owns(u.cfg.rules[i], id)
    ensures Feeds(u, ops', start, at, i, ip, first, since + todo)
    decreases todo
  {
    if todo == {} {
      assert since + todo == since;
      ops' := ops;
    } else {
      var id :| id in todo;
      var next := FeedOne(u, ops, start, at, i, ip, first, since, id);
      ops' := FeedAll(u, next, start, at, i, ip, first, since + {id}, todo - {id});
      assert since + {id} + (todo - {id}) == since + todo;
    }
  }

  lemma PickOther(ids: set<string>, id: Option<string>) returns (first: string)
    requires |ids| > 1
    ensures first in ids && Some(first) != id
  {
    if forall x :: x in ids ==> Some(x) == id {
      var x :| x in ids;
      SubsetCard(ids, {x});
    }
    first :| first in ids && Some(first) != id;
  }

  /** The first ID of the run. */
  lemma FeedsStart(u: Setup, i: nat, rec: Record, at: Time, first: string)
    requires i < |u.cfg.rules| && at >= 1.0
    ensures Feeds(u, Once(rec), Sighting(1.0, rec), at, i, rec.ip, first, {})
  {
    OnceFed(rec);
    RunStamps(u, Once(rec));
  }

  /** The last record of the run, which the hasty rule hits too. */
  lemma HastyEnds(u: Setup, i: nat, j: nat, ops: seq<Op>, start: Sighting, rec: Record, at: Time, first: string,
                  ids: set<string>)
    requires Usual(u, rec.ip) && i < |u.cfg.rules| && j < |u.cfg.rules| && u.cfg.rules[i].kind == Enumeration
    requires AllOwn(u, i)
    requires Shares(u.cfg.rules[j], u.cfg.rules[i]) && Fires(u.cfg.rules[j], rec) && Fires(u.cfg.rules[i], rec)
    requires Token(u.cfg.rules[i], rec) != Some(first) && first in ids && |ids| > PURGE_ABOVE
    requires at - u.cfg.rules[j].window as real > 1.0
    requires Feeds(u, ops, start, at, i, rec.ip, first, ids - {first})
    ensures var ops' := ops + [Feed(Sighting(at, rec), None, {})];
            && Ordered(ops') && Clock(ops') == at && |Fed(ops')| > 0 && Fed(ops')[0] == start
            && first !in Ids(Run(u, ops').tracks, u.cfg.rules[i], rec.ip)
  {
    var o, w := Sighting(at, rec), Run(u, ops).tracks;
    OrderedMore(ops, Feed(o, None, {}));
    RunLast(u, ops, Feed(o, None, {}));
    FedTouch(u, w, o, i);
    HastyRules(u, i, j, w.(ips := w.ips[rec.ip := Updated(u.cfg, w, rec, at)]), rec, at, first, ids - {first}, ids,
               |u.cfg.rules|);
  }

  lemma StillDistinct(u: Setup, i: nat, ops: seq<Op>, ip: string, at: Time, first: string)
    requires i < |u.cfg.rules| && u.cfg.rules[i].kind == Enumeration && |Fed(ops)| > 0
    requires Fed(ops)[0].rec.ip == ip && Token(u.cfg.rules[i], Fed(ops)[0].rec) == Some(first)
    requires Fed(ops)[0].at >= at - u.cfg.rules[i].window as real
    requires first !in Ids(Run(u, ops).tracks, u.cfg.rules[i], ip)
    ensures !Tells(u, ops, i, ip, at)
  {
    assert first in DistinctSince(Fed(ops), u.cfg.rules[i], ip, at - u.cfg.rules[i].window as real);
  }

  /** The run up to its last record. */
  lemma HastyBegins(u: Setup, i: nat, rec: Record, at: Time)
    returns (ops: seq<Op>, start: Sighting, first: string, ids: set<string>)
    requires Usual(u, rec.ip) && i < |u.cfg.rules| && u.cfg.rules[i].kind == Enumeration && AllOwn(u, i)
    requires ManyIds(u.cfg.rules[i]) && at >= 1.0
    ensures first in ids && |ids| > PURGE_ABOVE && Token(u.cfg.rules[i], rec) != Some(first)
    ensures start.at == 1.0 && start.rec.ip == rec.ip && Token(u.cfg.rules[i], start.rec) == Some(first)
    ensures Feeds(u, ops, start, at, i, rec.ip, first, ids - {first})
  {
    var r := u.cfg.rules[i];
    ids :| AreMany(r, ids);
    first := PickOther(ids, Token(r, rec));
    var other :| Token(r, other) == Some(first);
    start := Sighting(1.0, From(other, rec.ip));
    SameHit(r, other, rec.ip);
    FeedsStart(u, i, start.rec, at, first);
    ops := FeedAll(u, Once(start.rec), start, at, i, rec.ip, first, {}, ids - {first});
    assert {} + (ids - {first}) == ids - {first};
  }

  lemma HastyTells(u: Setup, i: nat, j: nat, rec: Record)
    requires Usual(u, rec.ip) && i < |u.cfg.rules| && j < |u.cfg.rules| && u.cfg.rules[i].kind == Enumeration
    requires AllOwn(u, i)
    requires Shares(u.cfg.rules[j], u.cfg.rules[i]) && Fires(u.cfg.rules[j], rec)
    requires u.cfg.rules[j].window < u.cfg.rules[i].window && ManyIds(u.cfg.rules[i])
    ensures !AlwaysTells(u, i)
  {
    var at := 1.5 + u.cfg.rules[j].window as real;
    TurnToken(u, i, j, rec);
    var ops, start, first, ids := HastyBegins(u, i, rec, at);
    HastyEnds(u, i, j, ops, start, rec, at, first, ids);
    StillDistinct(u, i, ops + [Feed(Sighting(at, rec), None, {})], rec.ip, at, first);
  }

  // ---- exactly when

  lemma DisturbedTells(u: Setup, i: nat, j: nat, someone: string)
    requires Usual(u, someone) && i < |u.cfg.rules| && j < |u.cfg.rules| && i != j
    requires Disturbs(u.cfg.rules[j], u.cfg.rules[i])
    ensures !AlwaysTells(u, i)
  {
    var r := u.cfg.rules[i];
    if Windowed(r) {
      var rec :| Fires(u.cfg.rules[j], rec);
      SameHit(u.cfg.rules[j], rec, someone);
      ExtraStampsTell(u, i, j, From(rec, someone));
    } else if !AllOwn(u, i) {
      var l :| 0 <= l < |u.cfg.rules| && Shares(u.cfg.rules[l], r) && Foreign(u.cfg.rules[l], r);
      var rec :| Fires(u.cfg.rules[l], rec) && Token(r, rec) != Token(u.cfg.rules[l], rec);
      SameHit(u.cfg.rules[l], rec, someone);
      SameHit(r, rec, someone);
      ForeignTells(u, i, l, From(rec, someone));
    } else {
      var rec :| Fires(u.cfg.rules[j], rec);
      SameHit(u.cfg.rules[j], rec, someone);
      HastyTells(u, i, j, From(rec, someone));
    }
  }

  /** The store of a rule that can fire tells its own hits, at every point of every run, if
      and only if no other rule disturbs it and its window is at most an hour. */
  lemma TellsIff(u: Setup, i: nat, someone: string)
    requires Usual(u, someone) && i < |u.cfg.rules| && Tracked(u.cfg.rules[i]) && CanFire(u.cfg.rules[i])
    ensures AlwaysTells(u, i) <==> Undisturbed(u.cfg, i) && u.cfg.rules[i].window <= 3600
  {
    if u.cfg.rules[i].window > 3600 {
      var rec :| Fires(u.cfg.rules[i], rec);
      SameHit(u.cfg.rules[i], rec, someone);
      LongWindowTells(u, i, From(rec, someone));
    } else if !Undisturbed(u.cfg, i) {
      var j :| 0 <= j < |u.cfg.rules| && j != i && Disturbs(u.cfg.rules[j], u.cfg.rules[i]);
      DisturbedTells(u, i, j, someone);
    } else {
      forall ops, ip, now | Ordered(ops) && Clock(ops) <= now && !u.cfg.trusted(ip) ensures Tells(u, ops, i, ip, now) {
        SoundTells(u, ops, i, ip, now);
      }
    }
  }

  // ---- what the engine compares

  /** A record hits rule `i`, which counts hits, after a run. */
  ghost predicate Arrives(u: Setup, ops: seq<Op>, i: nat, o: Sighting) {
    && Ordered(ops) && Clock(ops) <= o.at && !u.cfg.trusted(o.rec.ip)
    && i < |u.cfg.rules| && Windowed(u.cfg.rules[i]) && Fires(u.cfg.rules[i], o.rec)
  }

  /** The engine compares the recount with the limit. */
  ghost predicate CountedAt(u: Setup, ops: seq<Op>, i: nat, o: Sighting)
    requires i < |u.cfg.rules|
  {
    Judged(u, ops, i, o) == Recounted(u, ops, i, o)
  }

  ghost predicate CountsExactly(u: Setup) {
    forall ops, i: nat, o :: Arrives(u, ops, i, o) ==> CountedAt(u, ops, i, o)
  }

  /** Both count hits, and both can fire. */
  ghost predicate Collide(a: EndpointRule, b: EndpointRule) {
    Windowed(a) && Windowed(b) && CanFire(a) && CanFire(b)
  }

  /** No two rules that count hits and can fire have one name. */
  ghost predicate NamesApart(cfg: Config) {
    forall i, j :: 0 <= i < |cfg.rules| && 0 <= j < |cfg.rules| && i != j && Collide(cfg.rules[i], cfg.rules[j]) ==>
      cfg.rules[i].name != cfg.rules[j].name
  }

  lemma DequeTurn(other: EndpointRule, w: Tracks, rec: Record, r: EndpointRule, n: nat)
    requires Windowed(r) && Deque(w, r, rec.ip) == Copies(n) && other.window >= 0
    ensures Deque(CheckRule(other, w, rec, 1.0).0, r, rec.ip)
         == Copies(if Shares(other, r) && Fires(other, rec) then n + 1 else n)
  {
    if Shares(other, r) && Fires(other, rec) {
      CopiesNext(n, 1.0 - other.window as real);
    } else {
      CheckRuleFrame(other, w, rec, 1.0, r, rec.ip);
    }
  }

  lemma {:induction false} DequeGrows(rules: seq<EndpointRule>, w: Tracks, rec: Record, r: EndpointRule, k: nat, n: nat)
    requires k <= |rules| && Windowed(r) && Deque(w, r, rec.ip) == Copies(n)
    requires forall j :: 0 <= j < |rules| ==> rules[j].window >= 0
    ensures Deque(CheckRules(rules, w, rec, 1.0, k).0, r, rec.ip) == Copies(n + Entries(rules, r, rec, k))
  {
    if k > 0 {
      DequeGrows(rules, w, rec, r, k - 1, n);
      DequeTurn(rules[k - 1], CheckRules(rules, w, rec, 1.0, k - 1).0, rec, r, n + Entries(rules, r, rec, k - 1));
    }
  }

  /** The second record finds the stamps of the first, and of the rules before its own. */
  lemma ComparedAfter(u: Setup, w: Tracks, i: nat, b: Record, n: nat)
    requires i < |u.cfg.rules| && Windowed(u.cfg.rules[i]) && Fires(u.cfg.rules[i], b)
    requires Deque(w, u.cfg.rules[i], b.ip) == Copies(n)
    requires forall j :: 0 <= j < |u.cfg.rules| ==> u.cfg.rules[j].window >= 0
    ensures Compared(u.cfg, w, Sighting(1.0, b), i) >= n + 1
  {
    var r := u.cfg.rules[i];
    DequeGrows(u.cfg.rules, w, b, r, i, n);
    CopiesNext(n + Entries(u.cfg.rules, r, b, i), 1.0 - r.window as real);
  }

  lemma HitsAfter(cfg: Config, r: EndpointRule, a: Record, b: Record)
    requires Windowed(r) && Fires(r, b) && a.ip == b.ip && r.window >= 0
    ensures NaiveRuleCount(cfg, [Sighting(1.0, a)] + [Sighting(1.0, b)], r, b.ip, 1.0)
         == 1 + (if Fires(r, a) then 1 else 0)
  {
    OneHit(cfg, r, a, 1.0 - r.window as real);
    RecountAfter(cfg, [Sighting(1.0, a)], Sighting(1.0, b), Hits(r, a.ip), 1.0 - r.window as real);
  }

  /** A record that another rule of the name hits, then one that the rule hits itself. */
  lemma SharedNameMiscounts(u: Setup, i: nat, j: nat, a: Record, b: Record)
    requires Usual(u, a.ip) && b.ip == a.ip && i < |u.cfg.rules| && j < |u.cfg.rules| && i != j
    requires Windowed(u.cfg.rules[i]) && Shares(u.cfg.rules[j], u.cfg.rules[i])
    requires Fires(u.cfg.rules[j], a) && Fires(u.cfg.rules[i], b)
    ensures !CountedAt(u, Once(a), i, Sighting(1.0, b))
  {
    var n := Entries(u.cfg.rules, u.cfg.rules[i], a, |u.cfg.rules|);
    OnceFed(a);
    ExtraStamps(u, i, j, a);
    ComparedAfter(u, Run(u, Once(a)).tracks, i, b, n);
    HitsAfter(u.cfg, u.cfg.rules[i], a, b);
  }

  lemma SoundCounts(u: Setup, ops: seq<Op>, i: nat, o: Sighting)
    requires Arrives(u, ops, i, o) && Sound(u.cfg, i)
    ensures CountedAt(u, ops, i, o)
  {
    RunKeepsTracks(u, ops);
    ComparedCounts(u.cfg, Run(u, ops).tracks, Fed(ops), Clock(ops), o, i);
  }

  lemma ApartIsUndisturbed(cfg: Config, i: nat)
    requires i < |cfg.rules| && NamesApart(cfg) && Windowed(cfg.rules[i]) && CanFire(cfg.rules[i])
    ensures Undisturbed(cfg, i)
  {
  }

  /** With windows of at most an hour, the counts that the engine compares are exact on every
      run if and only if no two rules that count hits and can fire have one name. */
  lemma CountsExactlyIff(u: Setup, someone: string)
    requires Usual(u, someone) && forall i :: 0 <= i < |u.cfg.rules| ==> u.cfg.rules[i].window <= 3600
    ensures CountsExactly(u) <==> NamesApart(u.cfg)
  {
    if NamesApart(u.cfg) {
      forall ops, i: nat, o | Arrives(u, ops, i, o) ensures CountedAt(u, ops, i, o) {
        assert CanFire(u.cfg.rules[i]);
        ApartIsUndisturbed(u.cfg, i);
        SoundCounts(u, ops, i, o);
      }
    } else {
      var i, j :| 0 <= i < |u.cfg.rules| && 0 <= j < |u.cfg.rules| && i != j
                  && Collide(u.cfg.rules[i], u.cfg.rules[j])
                  && u.cfg.rules[i].name == u.cfg.rules[j].name;
      var a :| Fires(u.cfg.rules[j], a);
      var b :| Fires(u.cfg.rules[i], b);
      SameHit(u.cfg.rules[j], a, someone);
      SameHit(u.cfg.rules[i], b, someone);
      SharedNameMiscounts(u, i, j, From(a, someone), From(b, someone));
      OnceFed(From(a, someone));
      assert Arrives(u, Once(From(a, someone)), i, Sighting(1.0, From(b, someone)));
    }
  }
}
