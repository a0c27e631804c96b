/** Exactly which limits and windows make a rule that counts hits in a window
    (secwatch/detect.py) decide as a recount of the whole history does: pruning forgets a
    rule's window once it was idle for an hour. */
module WindowLimits {
  import opened Collections
  import opened Windows
  import opened Detect
  import opened DetectExact
  import opened Alerts
  import opened Engine
  import opened Forgetting

  /** `o` arrives after a run and hits rule `i`, which counts hits, which nothing disturbs,
      and which has this limit and window. */
  ghost predicate Arrives(u: Setup, ops: seq<Op>, i: nat, o: Sighting, limit: int, window: int) {
    && Ordered(ops) && Clock(ops) <= o.at && !u.cfg.trusted(o.rec.ip)
    && i < |u.cfg.rules| && Undisturbed(u.cfg, i) && Windowed(u.cfg.rules[i]) && Fires(u.cfg.rules[i], o.rec)
    && u.cfg.rules[i].limit == limit && u.cfg.rules[i].window == window
  }

  ghost predicate AlwaysExact(limit: int, window: int) {
    forall u: Setup, ops, i: nat, o :: Arrives(u, ops, i, o, limit, window)
      ==> (Judged(u, ops, i, o) >= limit <==> Recounted(u, ops, i, o) >= limit)
  }

  /** Up to an hour the two numbers are the same. */
  lemma ExactUpToAnHour(u: Setup, ops: seq<Op>, i: nat, o: Sighting, limit: int, window: int)
    requires Arrives(u, ops, i, o, limit, window) && 0 <= window <= 3600
    ensures Judged(u, ops, i, o) == Recounted(u, ops, i, o)
  {
    RunKeepsTracks(u, ops);
    ComparedCounts(u.cfg, Run(u, ops).tracks, Fed(ops), Clock(ops), o, i);
  }

  /** With a limit of at most 1 the record itself is enough. */
  lemma ExactAtOne(u: Setup, ops: seq<Op>, i: nat, o: Sighting, limit: int, window: int)
    requires Arrives(u, ops, i, o, limit, window) && limit <= 1 && 0 <= window
    ensures Judged(u, ops, i, o) >= limit && Recounted(u, ops, i, o) >= limit
  {
    OwnHitCompared(u.cfg, Run(u, ops).tracks, i, o);
    OwnHitCounted(u.cfg, Fed(ops), u.cfg.rules[i], o);
  }

  // ---- all hits but one, a flush after an hour, the last hit in the window

  /** The site has one rule, with a window of more than an hour, and the record hits it. */
  ghost predicate Slow(u: Setup, r: EndpointRule, rec: Record) {
    u.cfg.rules == [r] && Windowed(r) && Fires(r, rec) && !u.cfg.trusted(rec.ip) && r.window > 3600 && r.limit >= 2
  }

  function Repeated(rec: Record, n: nat): seq<Op> { seq(n, i => Feed(Sighting(1.0, rec), None, {})) }

  function Silence(rec: Record, n: nat): seq<Op> { Repeated(rec, n) + [Flush(3601.5, true)] }

  lemma RepeatedOrdered(rec: Record, n: nat)
    requires n > 0
    ensures Ordered(Repeated(rec, n)) && Clock(Repeated(rec, n)) == 1.0
  {
  }

  lemma {:induction false} RepeatedHits(cfg: Config, r: EndpointRule, rec: Record, n: nat, since: Time)
    requires Fires(r, rec) && since <= 1.0
    ensures Recount(cfg, Fed(Repeated(rec, n)), Hits(r, rec.ip), since) == n
  {
    if n > 0 {
      RepeatedHits(cfg, r, rec, n - 1, since);
      assert Repeated(rec, n)[..n - 1] == Repeated(rec, n - 1);
      RecountAfter(cfg, Fed(Repeated(rec, n - 1)), Sighting(1.0, rec), Hits(r, rec.ip), since);
    }
  }

  lemma FirstHitCompared(cfg: Config, w: Tracks, o: Sighting)
    requires |cfg.rules| > 0 && Windowed(cfg.rules[0]) && Fires(cfg.rules[0], o.rec) && cfg.rules[0].window >= 0
    requires w.win == map[]
    ensures Compared(cfg, w, o, 0) == 1
  {
    assert [] + [o.at] == [o.at];
  }

  lemma SilenceJudged(u: Setup, r: EndpointRule, rec: Record)
    requires Slow(u, r, rec)
    ensures Judged(u, Silence(rec, r.limit - 1), 0, Sighting(3601.75, rec)) == 1
  {
    RepeatedOrdered(rec, r.limit - 1);
    HourForgets(u, Repeated(rec, r.limit - 1), 3601.5);
    FirstHitCompared(u.cfg, Run(u, Silence(rec, r.limit - 1)).tracks, Sighting(3601.75, rec));
  }

  lemma FedSilence(rec: Record, n: nat)
    ensures Fed(Silence(rec, n)) == Fed(Repeated(rec, n))
  {
    assert Silence(rec, n)[..|Repeated(rec, n)|] == Repeated(rec, n);
  }

  lemma HitIs(u: Setup, ops: seq<Op>, o: Sighting, r: EndpointRule)
    requires u.cfg.rules == [r] && Windowed(r)
    ensures Recounted(u, ops, 0, o) == Recount(u.cfg, Fed(ops) + [o], Hits(r, o.rec.ip), o.at - r.window as real)
  {
  }

  lemma SilenceHit(u: Setup, r: EndpointRule, rec: Record)
    requires Slow(u, r, rec)
    ensures Recounted(u, Silence(rec, r.limit - 1), 0, Sighting(3601.75, rec)) == r.limit
  {
    var n, o := r.limit - 1, Sighting(3601.75, rec);
    FedSilence(rec, n);
    RepeatedHits(u.cfg, r, rec, n, 3601.75 - r.window as real);
    RecountAfter(u.cfg, Fed(Silence(rec, n)), o, Hits(r, rec.ip), 3601.75 - r.window as real);
    HitIs(u, Silence(rec, n), o, r);
  }

  lemma SilenceArrives(u: Setup, r: EndpointRule, rec: Record)
    requires Slow(u, r, rec)
    ensures Arrives(u, Silence(rec, r.limit - 1), 0, Sighting(3601.75, rec), r.limit, r.window)
  {
    RepeatedOrdered(rec, r.limit - 1);
    OrderedMore(Repeated(rec, r.limit - 1), Flush(3601.5, true));
  }

  const VISITOR := Record("203.0.113.7", "", "GET", "/", 200, "")

  function SlowRule(limit: int, window: int): EndpointRule {
    EndpointRule("slow", Rate, Medium, {"*"}, path => Some(path), {}, window, limit)
  }

  function Site(r: EndpointRule): Setup {
    Setup(Config(_ => false, _ => false, _ => false, _ => false, _ => false, _ => false, "", 9, 9, 9, 9, [r]),
          Policy(High, {}, true, false, {}, false, _ => false, _ => false))
  }

  /** A rule that nothing disturbs decides as the recount does on every run if and only if
      its limit is at most 1 or its window at most an hour. */
  lemma ExactIff(limit: int, window: int)
    requires 0 <= window
    ensures AlwaysExact(limit, window) <==> limit <= 1 || window <= 3600
  {
    if limit <= 1 || window <= 3600 {
      forall u: Setup, ops, i: nat, o | Arrives(u, ops, i, o, limit, window)
        ensures Judged(u, ops, i, o) >= limit <==> Recounted(u, ops, i, o) >= limit
      {
        if limit <= 1 {
          ExactAtOne(u, ops, i, o, limit, window);
        } else {
          ExactUpToAnHour(u, ops, i, o, limit, window);
        }
      }
    } else {
      var r := SlowRule(limit, window);
      assert Slow(Site(r), r, VISITOR);
      SilenceArrives(Site(r), r, VISITOR);
      SilenceJudged(Site(r), r, VISITOR);
      SilenceHit(Site(r), r, VISITOR);
    }
  }
}
