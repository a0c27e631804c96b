/** What the engine (secwatch/detect.py) still gets right with rules whose counts can be wrong:
    with a limit of at most 1 the decision does not depend on the count, and neither does
    anything that follows from it. */
module UpToCounts {
  import opened Collections
  import opened Windows
  import opened Detect
  import opened DetectExact
  import opened Alerts
  import opened Engine

  // ---- events, count apart

  predicate SameDecision(a: Decision, b: Decision) { a.rule == b.rule && a.severity == b.severity }

  ghost predicate SameDecisions(a: seq<Decision>, b: seq<Decision>) {
    |a| == |b| && forall i :: 0 <= i < |a| ==> SameDecision(a[i], b[i])
  }

  predicate SameEvent(a: Event, b: Event) { a == b.(count := a.count) }

  ghost predicate SameEvents(a: seq<Event>, b: seq<Event>) {
    |a| == |b| && forall i :: 0 <= i < |a| ==> SameEvent(a[i], b[i])
  }

  lemma ClearSame(a: seq<Event>, b: seq<Event>, ip: string, rule: string, onlyAlerted: bool, gap: Time, now: Time)
    requires SameEvents(a, b) && Clear(a, ip, rule, onlyAlerted, gap, now)
    ensures Clear(b, ip, rule, onlyAlerted, gap, now)
  {
    forall i | 0 <= i < |b| && Concerns(b[i], ip, rule, onlyAlerted) ensures b[i].ts + gap <= now {
      assert SameEvent(a[i], b[i]) && Concerns(a[i], ip, rule, onlyAlerted);
    }
  }

  lemma SameBack(a: seq<Event>, b: seq<Event>)
    requires SameEvents(a, b)
    ensures SameEvents(b, a)
  {
    forall i | 0 <= i < |b| ensures SameEvent(b[i], a[i]) {
      assert SameEvent(a[i], b[i]);
    }
  }

  /** No gate, no policy and no lookup reads a count. */
  lemma RecordedSame(p: Policy, a: seq<Event>, b: seq<Event>, r: Report, r': Report)
    requires SameEvents(a, b) && SameDecision(r.what, r'.what) && r' == r.(what := r'.what)
    ensures SameEvents(NaiveRecorded(p, a, r), NaiveRecorded(p, b, r'))
  {
    SameBack(a, b);
    ClearBoth(a, b, r.ip, r.what.rule, false, EVENT_SUPPRESS, r.at);
    ClearBoth(a, b, r.ip, r.what.rule, true, ALERT_COOLDOWN, r.at);
  }

  lemma ClearBoth(a: seq<Event>, b: seq<Event>, ip: string, rule: string, onlyAlerted: bool, gap: Time, now: Time)
    requires SameEvents(a, b) && SameEvents(b, a)
    ensures Clear(a, ip, rule, onlyAlerted, gap, now) <==> Clear(b, ip, rule, onlyAlerted, gap, now)
  {
    if Clear(a, ip, rule, onlyAlerted, gap, now) {
      ClearSame(a, b, ip, rule, onlyAlerted, gap, now);
    }
    if Clear(b, ip, rule, onlyAlerted, gap, now) {
      ClearSame(b, a, ip, rule, onlyAlerted, gap, now);
    }
  }

  lemma {:induction false} AllRecordedSame(p: Policy, a: seq<Event>, b: seq<Event>, at: Time, ip: string,
                                           ds: seq<Decision>, ds': seq<Decision>, muted: set<string>)
    requires SameEvents(a, b) && SameDecisions(ds, ds')
    ensures SameEvents(NaiveRecordedAll(p, a, at, ip, ds, muted), NaiveRecordedAll(p, b, at, ip, ds', muted))
    decreases |ds|
  {
    if ds != [] {
      var n := |ds| - 1;
      AllRecordedSame(p, a, b, at, ip, ds[..n], ds'[..n], muted);
      RecordedSame(p, NaiveRecordedAll(p, a, at, ip, ds[..n], muted), NaiveRecordedAll(p, b, at, ip, ds'[..n], muted),
                   Report(at, ip, ds[n], muted, false), Report(at, ip, ds'[n], muted, false));
    }
  }

  // ---- which rules decide

  /** One hit is enough for the rule, or its count is exact. */
  ghost predicate Decides(cfg: Config, i: int)
    requires 0 <= i < |cfg.rules|
  {
    (cfg.rules[i].limit <= 1 && cfg.rules[i].window >= 0) || (Sound(cfg, i) && Exact(cfg.rules[i]))
  }

  ghost predicate AllDecide(cfg: Config) {
    forall i :: 0 <= i < |cfg.rules| && Tracked(cfg.rules[i]) && CanFire(cfg.rules[i]) ==> Decides(cfg, i)
  }

  /** The engine and the recount decide alike about a record and a rule. */
  ghost predicate Alike(cfg: Config, w: Tracks, h: seq<Sighting>, o: Sighting, i: int)
    requires 0 <= i < |cfg.rules|
  {
    SameDecisions(Decided(cfg, w, o, i), NaivelyDecided(cfg, h, o, i))
  }

  lemma RuleDecidesAlike(cfg: Config, w: Tracks, h: seq<Sighting>, clock: Time, o: Sighting, i: nat)
    requires AllDecide(cfg) && i < |cfg.rules| && clock <= o.at
    requires RulesAgree(cfg, w, h, o.rec.ip, clock)
    ensures Alike(cfg, w, h, o, i)
  {
    if Fires(cfg.rules[i], o.rec) && Tracked(cfg.rules[i]) {
      assert CanFire(cfg.rules[i]) && Decides(cfg, i);
      if Sound(cfg, i) && Exact(cfg.rules[i]) {
        ComparedCounts(cfg, w, h, clock, o, i);
      } else {
        OwnHitCompared(cfg, w, i, o);
        OwnHitCounted(cfg, h, cfg.rules[i], o);
      }
    }
  }

  ghost predicate AllAlike(cfg: Config, w: Tracks, h: seq<Sighting>, o: Sighting, k: nat)
    requires k <= |cfg.rules|
    decreases k
  {
    k == 0 || (AllAlike(cfg, w, h, o, k - 1) && Alike(cfg, w, h, o, k - 1))
  }

  lemma {:induction false} RulesDecideAlike(cfg: Config, w: Tracks, h: seq<Sighting>, o: Sighting, k: nat)
    requires k <= |cfg.rules| && AllAlike(cfg, w, h, o, k)
    ensures SameDecisions(CheckRules(cfg.rules, w, o.rec, o.at, k).1, NaiveRules(cfg, h + [o], o.rec, o.at, k))
    decreases k
  {
    if k > 0 {
      RulesDecideAlike(cfg, w, h, o, k - 1);
      OneMoreAlike(cfg, w, h, o, k);
    }
  }

  lemma {:induction false} EachAlike(cfg: Config, w: Tracks, h: seq<Sighting>, o: Sighting, k: nat)
    requires k <= |cfg.rules| && forall i: nat :: i < |cfg.rules| ==> Alike(cfg, w, h, o, i)
    ensures AllAlike(cfg, w, h, o, k)
    decreases k
  {
    if k > 0 {
      EachAlike(cfg, w, h, o, k - 1);
    }
  }

  lemma OneMoreAlike(cfg: Config, w: Tracks, h: seq<Sighting>, o: Sighting, k: nat)
    requires 0 < k <= |cfg.rules| && Alike(cfg, w, h, o, k - 1)
    requires SameDecisions(CheckRules(cfg.rules, w, o.rec, o.at, k - 1).1, NaiveRules(cfg, h + [o], o.rec, o.at, k - 1))
    ensures SameDecisions(CheckRules(cfg.rules, w, o.rec, o.at, k).1, NaiveRules(cfg, h + [o], o.rec, o.at, k))
  {
    SameSum(CheckRules(cfg.rules, w, o.rec, o.at, k - 1).1, NaiveRules(cfg, h + [o], o.rec, o.at, k - 1),
            Decided(cfg, w, o, k - 1), NaivelyDecided(cfg, h, o, k - 1));
  }

  lemma SameSum(a: seq<Decision>, b: seq<Decision>, c: seq<Decision>, d: seq<Decision>)
    requires SameDecisions(a, b) && SameDecisions(c, d)
    ensures SameDecisions(a + c, b + d)
  {
  }

  lemma EndpointsDecideAlike(cfg: Config, w: Tracks, h: seq<Sighting>, clock: Time, o: Sighting)
    requires AllDecide(cfg) && Agrees(cfg, w, h, clock) && clock <= o.at && !cfg.trusted(o.rec.ip)
    ensures SameDecisions(Endpoints(cfg, w, o.rec, o.at).1, NaiveRules(cfg, h + [o], o.rec, o.at, |cfg.rules|))
  {
    var entered := w.(ips := w.ips[o.rec.ip := Updated(cfg, w, o.rec, o.at)]);
    forall i | 0 <= i < |cfg.rules| && Sound(cfg, i)
      ensures RuleAgrees(cfg, entered, h, cfg.rules[i], o.rec.ip, clock)
    {
      RuleSame(cfg, w, entered, h, cfg.rules[i], o.rec.ip, clock);
    }
    forall i: nat | i < |cfg.rules| ensures Alike(cfg, entered, h, o, i) {
      RuleDecidesAlike(cfg, entered, h, clock, o, i);
    }
    EachAlike(cfg, entered, h, o, |cfg.rules|);
    RulesDecideAlike(cfg, entered, h, o, |cfg.rules|);
  }

  lemma FeedDecidesAlike(cfg: Config, w: Tracks, h: seq<Sighting>, clock: Time, o: Sighting, verdict: Option<bool>)
    requires AllDecide(cfg) && Agrees(cfg, w, h, clock) && clock <= o.at
    ensures SameDecisions(Observe(cfg, w, verdict, o.rec, o.at).1, NaiveDecisions(cfg, h + [o], verdict))
  {
    if !cfg.trusted(o.rec.ip) {
      assert IpAgrees(cfg, Get(w.ips, o.rec.ip, NEW_IP), h, o.rec.ip, clock);
      VolumesDecide(cfg, w, h, clock, o);
      EndpointsDecideAlike(cfg, w, h, clock, o);
      var first := ProbeDecision(cfg, verdict, o.rec) + Volumes(cfg, w, o.rec, o.at);
      SameSum(first, first, Endpoints(cfg, w, o.rec, o.at).1, NaiveRules(cfg, h + [o], o.rec, o.at, |cfg.rules|));
    }
  }

  // ---- over runs

  lemma StepRefinesAlike(u: Setup, s: State, n: Naive, clock: Time, op: Op)
    requires AllDecide(u.cfg) && clock <= TimeOf(op)
    requires Agrees(u.cfg, s.tracks, n.history, clock) && GatesAgree(s.gates, s.log, clock) && SameEvents(s.log, n.log)
    ensures SameEvents(Step(u, s, op).log, NaiveStep(u, n, op).log)
  {
    match op
    case Feed(o, verdict, muted) =>
      var ds := Observe(u.cfg, s.tracks, verdict, o.rec, o.at).1;
      FeedDecidesAlike(u.cfg, s.tracks, n.history, clock, o, verdict);
      RecordedAllAgree(u.policy, s.gates, s.log, clock, o.at, o.rec.ip, ds, muted);
      AllRecordedSame(u.policy, s.log, n.log, o.at, o.rec.ip, ds, NaiveDecisions(u.cfg, n.history + [o], verdict),
                      muted);
    case Raise(r) =>
      RecordedAgrees(u.policy, s.gates, s.log, clock, r);
      RecordedSame(u.policy, s.log, n.log, r, r);
    case Flush(at, force) =>
  }

  /** If one hit is enough for every rule whose count can be wrong, the engine writes, count
      apart, exactly the events, alerts and bans of the naive engine, on every run. */
  lemma {:induction false} RunRefinesUpToCounts(u: Setup, ops: seq<Op>)
    requires AllDecide(u.cfg) && Ordered(ops)
    ensures SameEvents(Run(u, ops).log, NaiveRun(u, ops).log)
  {
    if ops != [] {
      var before, op := ops[..|ops| - 1], ops[|ops| - 1];
      RunRefinesUpToCounts(u, before);
      RunIsSpaced(u, before);
      RunKeepsTracks(u, before);
      NaiveHistory(u, before);
      StepRefinesAlike(u, Run(u, before), NaiveRun(u, before), Clock(before), op);
    }
  }
}
