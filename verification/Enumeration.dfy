/** Exactly which limits and windows make an enumeration rule (secwatch/detect.py) decide as
    a recount of the distinct IDs in its window does. Stale IDs are purged only when more
    than eight are stored, so limits from 2 to 8 can be reached by IDs that left the window;
    IDs that were idle for an hour are forgotten, so longer windows can miss some. */
module EnumerationLimits {
  import opened Collections
  import opened Windows
  import opened Detect
  import opened DetectExact
  import opened Alerts
  import opened Engine
  import opened Forgetting

  /** `o` arrives after a run and hits enumeration rule `i`, which nothing disturbs and which
      has this limit and window. */
  ghost predicate Arrives(u: Setup, ops: seq<Op>, i: nat, o: Sighting, limit: int, window: int) {
    && Ordered(ops) && Clock(ops) <= o.at && !u.cfg.trusted(o.rec.ip)
    && i < |u.cfg.rules| && Undisturbed(u.cfg, i)
    && u.cfg.rules[i].kind == Enumeration && Fires(u.cfg.rules[i], o.rec)
    && u.cfg.rules[i].limit == limit && u.cfg.rules[i].window == window
  }

  ghost predicate AlwaysExact(limit: int, window: int) {
    forall u: Setup, ops, i: nat, o :: Arrives(u, ops, i, o, limit, window)
      ==> (Judged(u, ops, i, o) >= limit <==> Recounted(u, ops, i, o) >= limit)
  }

  lemma ExactAbovePurge(u: Setup, ops: seq<Op>, i: nat, o: Sighting, limit: int, window: int)
    requires Arrives(u, ops, i, o, limit, window) && limit > PURGE_ABOVE && 0 <= window <= 3600
    ensures Judged(u, ops, i, o) >= limit <==> Recounted(u, ops, i, o) >= limit
  {
    RunKeepsTracks(u, ops);
    ComparedCounts(u.cfg, Run(u, ops).tracks, Fed(ops), Clock(ops), o, i);
  }

  /** With a limit of at most 1 the record's own ID is enough. */
  lemma ExactAtOne(u: Setup, ops: seq<Op>, i: nat, o: Sighting, limit: int, window: int)
    requires Arrives(u, ops, i, o, limit, window) && limit <= 1 && 0 <= window
    ensures Judged(u, ops, i, o) >= limit && Recounted(u, ops, i, o) >= limit
  {
    OwnHitCompared(u.cfg, Run(u, ops).tracks, i, o);
    OwnHitCounted(u.cfg, Fed(ops), u.cfg.rules[i], o);
  }

  // ---- the failing family: some IDs, a pause longer than the window, one more ID

  const VISITOR := "203.0.113.7"

  function Id(n: nat): (s: string)
    ensures |s| == n
  {
    seq(n, _ => 'x')
  }

  function Watch(limit: int, window: int): EndpointRule {
    EndpointRule("ids", Enumeration, Medium, {"*"}, path => Some(path), {}, window, limit)
  }

  function Site(limit: int, window: int): Setup {
    Setup(Config(_ => false, _ => false, _ => false, _ => false, _ => false, _ => false, "", 1, 1, 1, 1,
                 [Watch(limit, window)]),
          Policy(High, {}, true, false, {}, false, _ => false, _ => false))
  }

  function Visit(at: Time, n: nat): Sighting {
    Sighting(at, Record(VISITOR, "", "GET", Id(n), 200, ""))
  }

  /** What matters about the site. */
  ghost predicate Watches(u: Setup, limit: int, window: int) {
    u.cfg.rules == [Watch(limit, window)] && !u.cfg.trusted(VISITOR)
  }

  lemma WatchFires(limit: int, window: int, at: Time, n: nat)
    ensures Fires(Watch(limit, window), Visit(at, n).rec)
    ensures Watch(limit, window).token(Visit(at, n).rec.path) == Some(Id(n))
  {
  }

  function Visits(n: nat): (ops: seq<Op>)
    ensures |ops| == n
  {
    seq(n, (i: nat) => Feed(Visit(1.0, i + 1), None, {}))
  }

  lemma VisitsGrow(n: nat)
    ensures Visits(n + 1) == Visits(n) + [Feed(Visit(1.0, n + 1), None, {})]
  {
  }

  function Ids(n: nat): set<string> {
    set i: nat | 1 <= i <= n :: Id(i)
  }

  function Stored(n: nat): map<string, Time> {
    map k | k in Ids(n) :: 1.0
  }

  lemma StoredGrows(n: nat)
    ensures Stored(n + 1) == Stored(n)[Id(n + 1) := 1.0]
    ensures Id(n + 1) !in Stored(n)
  {
  }

  lemma {:induction false} StoredSize(n: nat)
    ensures |Stored(n)| == n
  {
    if n > 0 {
      StoredSize(n - 1);
      StoredGrows(n - 1);
    }
  }

  /** The IDs stored for the visitor. */
  predicate Holds(w: Tracks, d: map<string, Time>) {
    Get(w.ids, ("ids", VISITOR), map[]) == d
  }

  lemma VisitEntered(u: Setup, limit: int, window: int, w: Tracks, at: Time, n: nat)
    requires Watches(u, limit, window) && n < PURGE_ABOVE && Holds(w, Stored(n))
    ensures var checked := CheckRule(u.cfg.rules[0], w, Visit(at, n + 1).rec, at);
            Holds(checked.0, Stored(n)[Id(n + 1) := at]) && checked.1 == n + 1
  {
    WatchFires(limit, window, at, n + 1);
    EnteredSize(at, n);
  }

  lemma {:induction false} EnteredSize(at: Time, n: nat)
    ensures |Stored(n)[Id(n + 1) := at]| == n + 1
  {
    StoredSize(n);
    StoredGrows(n);
    assert Stored(n)[Id(n + 1) := at].Keys == Stored(n).Keys + {Id(n + 1)};
  }

  lemma VisitStored(u: Setup, limit: int, window: int, s: State, n: nat)
    requires Watches(u, limit, window) && n < PURGE_ABOVE && Holds(s.tracks, Stored(n))
    ensures Holds(Step(u, s, Feed(Visit(1.0, n + 1), None, {})).tracks, Stored(n + 1))
  {
    var o := Visit(1.0, n + 1);
    var entered := s.tracks.(ips := s.tracks.ips[VISITOR := Updated(u.cfg, s.tracks, o.rec, o.at)]);
    VisitEntered(u, limit, window, entered, 1.0, n);
    StoredGrows(n);
    assert CheckRules(u.cfg.rules, entered, o.rec, o.at, 0).0 == entered;
    assert CheckRules(u.cfg.rules, entered, o.rec, o.at, 1).0 == CheckRule(u.cfg.rules[0], entered, o.rec, o.at).0;
    assert Observe(u.cfg, s.tracks, None, o.rec, o.at).0 == CheckRules(u.cfg.rules, entered, o.rec, o.at, 1).0;
  }

  lemma {:induction false} VisitsStored(u: Setup, limit: int, window: int, n: nat)
    requires Watches(u, limit, window) && n <= PURGE_ABOVE
    ensures Holds(Run(u, Visits(n)).tracks, Stored(n))
  {
    if n > 0 {
      VisitsStored(u, limit, window, n - 1);
      VisitStored(u, limit, window, Run(u, Visits(n - 1)), n - 1);
      VisitsGrow(n - 1);
      RunLast(u, Visits(n - 1), Feed(Visit(1.0, n), None, {}));
    }
  }

  lemma {:induction false} VisitTimes(n: nat)
    ensures forall i :: 0 <= i < |Fed(Visits(n))| ==> Fed(Visits(n))[i].at == 1.0
  {
    if n > 0 {
      VisitTimes(n - 1);
      VisitsGrow(n - 1);
      assert Visits(n)[..n - 1] == Visits(n - 1);
    }
  }

  /** Every limit from 2 to 8 is reached by stale IDs in some run, whatever the window. */
  lemma StaleIdsMisfire(limit: int, window: int)
    requires 2 <= limit <= PURGE_ABOVE && 0 <= window
    ensures var u, ops, o := Site(limit, window), Visits(limit - 1), Visit(2.0 + window as real, limit);
            Arrives(u, ops, 0, o, limit, window)
            && Judged(u, ops, 0, o) >= limit && Recounted(u, ops, 0, o) < limit
  {
    VisitArrives(Site(limit, window), limit, window);
    VisitCompared(Site(limit, window), limit, window);
    VisitDistinct(Site(limit, window), limit, window);
  }

  lemma VisitArrives(u: Setup, limit: int, window: int)
    requires Watches(u, limit, window) && 2 <= limit && 0 <= window
    ensures Arrives(u, Visits(limit - 1), 0, Visit(2.0 + window as real, limit), limit, window)
  {
    VisitTimes(limit - 1);
    WatchFires(limit, window, 2.0 + window as real, limit);
  }

  lemma VisitCompared(u: Setup, limit: int, window: int)
    requires Watches(u, limit, window) && 2 <= limit <= PURGE_ABOVE
    ensures Judged(u, Visits(limit - 1), 0, Visit(2.0 + window as real, limit)) == limit
  {
    VisitsStored(u, limit, window, limit - 1);
    VisitEntered(u, limit, window, Run(u, Visits(limit - 1)).tracks, 2.0 + window as real, limit - 1);
  }

  lemma VisitDistinct(u: Setup, limit: int, window: int)
    requires Watches(u, limit, window) && 2 <= limit && 0 <= window
    ensures Recounted(u, Visits(limit - 1), 0, Visit(2.0 + window as real, limit)) <= 1
  {
    var o := Visit(2.0 + window as real, limit);
    VisitTimes(limit - 1);
    WatchFires(limit, window, o.at, limit);
    OnlyTheLast(Fed(Visits(limit - 1)), u.cfg.rules[0], o, o.at - window as real);
  }

  lemma OnlyTheLast(h: seq<Sighting>, r: EndpointRule, o: Sighting, since: Time)
    requires forall i :: 0 <= i < |h| ==> h[i].at < since
    requires Fires(r, o.rec)
    ensures |DistinctSince(h + [o], r, o.rec.ip, since)| <= 1
  {
    DistinctAfter(h, o, r, o.rec.ip, since);
    assert DistinctSince(h, r, o.rec.ip, since) == {};
    SubsetCard(DistinctSince(h + [o], r, o.rec.ip, since), {r.token(o.rec.path).value});
  }

  // ---- the other failing family: all IDs but one, a flush after an hour, the last ID

  lemma {:induction false} VisitsDistinct(r: EndpointRule, n: nat, since: Time)
    requires forall k: nat :: Fires(r, Visit(1.0, k).rec) && r.token(Id(k)) == Some(Id(k))
    requires since <= 1.0
    ensures DistinctSince(Fed(Visits(n)), r, VISITOR, since) == Ids(n)
  {
    if n == 0 {
      assert Fed(Visits(0)) == [];
    } else {
      VisitsDistinct(r, n - 1, since);
      VisitsGrow(n - 1);
      RunLast(Site(1, 1), Visits(n - 1), Feed(Visit(1.0, n), None, {}));
      DistinctAfter(Fed(Visits(n - 1)), Visit(1.0, n), r, VISITOR, since);
      IdsGrowing(n - 1);
    }
  }

  lemma IdsGrowing(n: nat)
    ensures Ids(n + 1) == Ids(n) + {Id(n + 1)}
  {
  }

  lemma {:induction false} IdsSize(n: nat)
    ensures |Ids(n)| == n
  {
    StoredSize(n);
    assert Stored(n).Keys == Ids(n);
  }

  function Silence(limit: int): seq<Op>
    requires limit >= 1
  {
    Visits(limit - 1) + [Flush(3601.5, true)]
  }

  lemma SilenceArrives(u: Setup, limit: int, window: int)
    requires Watches(u, limit, window) && limit > PURGE_ABOVE && window > 3600
    ensures Arrives(u, Silence(limit), 0, Visit(3601.75, limit), limit, window)
  {
    VisitsOrdered(limit - 1);
    OrderedMore(Visits(limit - 1), Flush(3601.5, true));
    WatchFires(limit, window, 3601.75, limit);
  }

  lemma VisitsOrdered(n: nat)
    requires n > 0
    ensures Ordered(Visits(n)) && Clock(Visits(n)) == 1.0
  {
  }

  /** The first ID that an empty dictionary takes. */
  lemma FirstIdSize(id: string, at: Time, cutoff: Time)
    ensures var none: map<string, Time> := map[]; |Purged(none[id := at], cutoff)| == 1
  {
    var none: map<string, Time> := map[];
    assert none[id := at].Keys == {id};
    assert |none[id := at]| == |none[id := at].Keys|;
  }

  lemma FirstIdCompared(cfg: Config, w: Tracks, o: Sighting)
    requires |cfg.rules| > 0 && cfg.rules[0].kind == Enumeration && Fires(cfg.rules[0], o.rec) && w.ids == map[]
    ensures Compared(cfg, w, o, 0) == 1
  {
    FirstIdSize(cfg.rules[0].token(o.rec.path).value, o.at, o.at - cfg.rules[0].window as real);
  }

  lemma SilenceJudged(u: Setup, limit: int, window: int)
    requires Watches(u, limit, window) && limit > PURGE_ABOVE && window > 3600
    ensures Judged(u, Silence(limit), 0, Visit(3601.75, limit)) == 1
  {
    VisitsOrdered(limit - 1);
    HourForgets(u, Visits(limit - 1), 3601.5);
    WatchFires(limit, window, 3601.75, limit);
    FirstIdCompared(u.cfg, Run(u, Silence(limit)).tracks, Visit(3601.75, limit));
  }

  lemma LastIdEntered(h: seq<Sighting>, r: EndpointRule, limit: nat, at: Time, since: Time)
    requires limit > 0 && since <= at && Fires(r, Visit(at, limit).rec) && r.token(Id(limit)) == Some(Id(limit))
    requires DistinctSince(h, r, VISITOR, since) == Ids(limit - 1)
    ensures DistinctSince(h + [Visit(at, limit)], r, VISITOR, since) == Ids(limit)
  {
    DistinctAfter(h, Visit(at, limit), r, VISITOR, since);
    IdsGrowing(limit - 1);
  }

  lemma LastIdCounted(h: seq<Sighting>, r: EndpointRule, limit: nat, at: Time, since: Time)
    requires limit > 0 && since <= at && Fires(r, Visit(at, limit).rec) && r.token(Id(limit)) == Some(Id(limit))
    requires DistinctSince(h, r, VISITOR, since) == Ids(limit - 1)
    ensures |DistinctSince(h + [Visit(at, limit)], r, VISITOR, since)| == limit
  {
    LastIdEntered(h, r, limit, at, since);
    IdsSize(limit);
  }

  lemma DistinctIs(u: Setup, ops: seq<Op>, o: Sighting, r: EndpointRule)
    requires |u.cfg.rules| > 0 && u.cfg.rules[0] == r && r.kind == Enumeration
    ensures Recounted(u, ops, 0, o) == |DistinctSince(Fed(ops) + [o], r, o.rec.ip, o.at - r.window as real)|
  {
  }

  lemma FedSilence(limit: int)
    requires limit >= 1
    ensures Fed(Silence(limit)) == Fed(Visits(limit - 1))
  {
    RunLast(Site(1, 1), Visits(limit - 1), Flush(3601.5, true));
  }

  lemma SilenceIds(r: EndpointRule, limit: int, since: Time)
    requires limit >= 1 && since <= 1.0 && forall k: nat :: Fires(r, Visit(1.0, k).rec) && r.token(Id(k)) == Some(Id(k))
    ensures DistinctSince(Fed(Silence(limit)), r, VISITOR, since) == Ids(limit - 1)
  {
    FedSilence(limit);
    VisitsDistinct(r, limit - 1, since);
  }

  lemma SilenceDistinct(u: Setup, limit: int, window: int)
    requires Watches(u, limit, window) && limit > PURGE_ABOVE && window > 3600
    ensures Recounted(u, Silence(limit), 0, Visit(3601.75, limit)) == limit
  {
    var r := Watch(limit, window);
    SilenceIds(r, limit, 3601.75 - window as real);
    LastIdCounted(Fed(Silence(limit)), r, limit, 3601.75, 3601.75 - window as real);
    DistinctIs(u, Silence(limit), Visit(3601.75, limit), r);
  }

  /** A rule that nothing disturbs decides as the recount does on every run if and only if
      its limit is at most 1, or above 8 with a window of at most an hour. */
  lemma ExactIff(limit: int, window: int)
    requires 0 <= window
    ensures AlwaysExact(limit, window) <==> limit <= 1 || (limit > PURGE_ABOVE && window <= 3600)
  {
    if limit <= 1 || (limit > PURGE_ABOVE && window <= 3600) {
      forall u: Setup, ops, i: nat, o | Arrives(u, ops, i, o, limit, window)
        ensures Judged(u, ops, i, o) >= limit <==> Recounted(u, ops, i, o) >= limit
      {
        if limit <= 1 {
          ExactAtOne(u, ops, i, o, limit, window);
        } else {
          ExactAbovePurge(u, ops, i, o, limit, window);
        }
      }
    } else if limit <= PURGE_ABOVE {
      StaleIdsMisfire(limit, window);
    } else {
      SilenceArrives(Site(limit, window), limit, window);
      SilenceJudged(Site(limit, window), limit, window);
      SilenceDistinct(Site(limit, window), limit, window);
    }
  }
}
