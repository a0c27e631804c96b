/** Whole runs of the detection engine (secwatch/detect.py): feeds, reports from other
    collectors and flushes, in any order, under a clock that never runs backwards. */
module Engine {
  import opened Collections
  import opened Windows
  import opened Detect
  import opened DetectExact
  import opened Alerts
  import opened Traffic

  const FLUSH_SECS := 5.0

  /** `Feed` carries what is known about the record's host and the rules muted for it;
      `Raise` is an event of another collector; `Flush` is `maybe_flush`. */
  datatype Op =
    | Feed(o: Sighting, verdict: Option<bool>, muted: set<string>)
    | Raise(r: Report)
    | Flush(at: Time, force: bool)

  /** The engine's memory, and the two kinds of tables it writes. */
  datatype State = State(
    tracks: Tracks, gates: Gates, buffer: Tallies, lastFlush: Time,
    table: Tallies, log: seq<Event>)

  const BOOT := State(NO_TRACKS, OPEN_GATES, NO_TALLIES, 0.0, NO_TALLIES, [])

  datatype Setup = Setup(cfg: Config, policy: Policy)

  /** `emit`: an event of a non-HTTP collector; the severity depends on the source's trust. */
  function Emitted(cfg: Config, at: Time, ip: string, rule: string, severity: Severity, trustedSeverity: Severity,
                   count: int, muted: set<string>): Report {
    var sev := if ip != "" && cfg.trusted(ip) then trustedSeverity else severity;
    Report(at, if ip == "" then "-" else ip, Decision(rule, sev, count), muted, false)
  }

  /** The events of one record pass through `_event` one after the other. */
  function RecordedAll(p: Policy, g: Gates, log: seq<Event>, at: Time, ip: string, ds: seq<Decision>,
                       muted: set<string>): (Gates, seq<Event>) {
    if ds == [] then (g, log)
    else
      var (g', log') := RecordedAll(p, g, log, at, ip, ds[..|ds| - 1], muted);
      Recorded(p, g', log', Report(at, ip, ds[|ds| - 1], muted, false))
  }

  predicate FlushDue(s: State, at: Time, force: bool) { force || at - s.lastFlush >= FLUSH_SECS }

  function AfterFeed(u: Setup, s: State, o: Sighting, verdict: Option<bool>, muted: set<string>): State {
    var (tracks, ds) := Observe(u.cfg, s.tracks, verdict, o.rec, o.at);
    var (gates, log) := RecordedAll(u.policy, s.gates, s.log, o.at, o.rec.ip, ds, muted);
    s.(tracks := tracks, gates := gates, log := log, buffer := Tallied(s.buffer, o))
  }

  function AfterRaise(u: Setup, s: State, r: Report): State {
    var (gates, log) := Recorded(u.policy, s.gates, s.log, r);
    s.(gates := gates, log := log)
  }

  function AfterFlush(s: State, at: Time, force: bool): State {
    if !FlushDue(s, at, force) then s
    else
      State(Pruned(s.tracks, at), PrunedGates(s.gates, at), NO_TALLIES, at, Merged(s.table, s.buffer), s.log)
  }

  function Step(u: Setup, s: State, op: Op): State {
    match op
    case Feed(o, verdict, muted) => AfterFeed(u, s, o, verdict, muted)
    case Raise(r) => AfterRaise(u, s, r)
    case Flush(at, force) => AfterFlush(s, at, force)
  }

  function Run(u: Setup, ops: seq<Op>): State {
    if ops == [] then BOOT else Step(u, Run(u, ops[..|ops| - 1]), ops[|ops| - 1])
  }

  // ---- the naive engine: it keeps every record and looks everything up

  datatype Naive = Naive(history: seq<Sighting>, log: seq<Event>)

  function NaiveRecordedAll(p: Policy, log: seq<Event>, at: Time, ip: string, ds: seq<Decision>,
                            muted: set<string>): seq<Event> {
    if ds == [] then log
    else
      NaiveRecorded(p, NaiveRecordedAll(p, log, at, ip, ds[..|ds| - 1], muted),
                    Report(at, ip, ds[|ds| - 1], muted, false))
  }

  function NaiveStep(u: Setup, n: Naive, op: Op): Naive {
    match op
    case Feed(o, verdict, muted) =>
      var h := n.history + [o];
      Naive(h, NaiveRecordedAll(u.policy, n.log, o.at, o.rec.ip, NaiveDecisions(u.cfg, h, verdict), muted))
    case Raise(r) => n.(log := NaiveRecorded(u.policy, n.log, r))
    case Flush(_, _) => n
  }

  function NaiveRun(u: Setup, ops: seq<Op>): Naive {
    if ops == [] then Naive([], []) else NaiveStep(u, NaiveRun(u, ops[..|ops| - 1]), ops[|ops| - 1])
  }

  // ---- runs under a clock

  function TimeOf(op: Op): Time {
    match op
    case Feed(o, _, _) => o.at
    case Raise(r) => r.at
    case Flush(at, _) => at
  }

  function Clock(ops: seq<Op>): Time { if ops == [] then 0.0 else TimeOf(ops[|ops| - 1]) }

  ghost predicate Ordered(ops: seq<Op>) {
    && (forall i, j :: 0 <= i < j < |ops| ==> TimeOf(ops[i]) <= TimeOf(ops[j]))
    && (forall i :: 0 <= i < |ops| ==> TimeOf(ops[i]) >= 0.0)
  }

  /** The records fed by a run. */
  function Fed(ops: seq<Op>): seq<Sighting> {
    if ops == [] then []
    else
      var rest := Fed(ops[..|ops| - 1]);
      if ops[|ops| - 1].Feed? then rest + [ops[|ops| - 1].o] else rest
  }

  /** An event of another collector is recorded with the severity for trusted sources exactly
      if it has a source, and that source is trusted. */
  lemma EmittedIs(cfg: Config, at: Time, ip: string, rule: string, severity: Severity, trustedSeverity: Severity,
                  count: int, muted: set<string>)
    ensures var r := Emitted(cfg, at, ip, rule, severity, trustedSeverity, count, muted);
            && r.at == at && r.what.rule == rule && r.what.count == count && r.muted == muted && !r.recordOnly
            && (ip == "" ==> r.ip == "-" && r.what.severity == severity)
            && (ip != "" ==> r.ip == ip)
            && (ip != "" && cfg.trusted(ip) ==> r.what.severity == trustedSeverity)
            && (ip != "" && !cfg.trusted(ip) ==> r.what.severity == severity)
  {
  }

  /** A flush happens when it is forced or five seconds passed since the last one: the counters
      go to the tables, and gates, windows and idle IPs are pruned; otherwise nothing changes. */
  lemma FlushIs(s: State, at: Time, force: bool)
    ensures var s' := AfterFlush(s, at, force);
            if force || at >= s.lastFlush + 5.0 then
              && s'.lastFlush == at && s'.log == s.log && s'.buffer == NO_TALLIES
              && (forall c, m :: Cell(s'.table, c, m) == Cell(s.table, c, m) + Cell(s.buffer, c, m))
              && (forall k :: k in s'.gates.suppress <==> k in s.gates.suppress && s.gates.suppress[k] >= at)
              && (forall k :: k in s'.gates.alertGate <==> k in s.gates.alertGate && s.gates.alertGate[k] >= at)
              && s'.tracks == Pruned(s.tracks, at)
            else s' == s
  {
    var s' := AfterFlush(s, at, force);
    if force || at >= s.lastFlush + 5.0 {
      forall c, m ensures Cell(s'.table, c, m) == Cell(s.table, c, m) + Cell(s.buffer, c, m) {
        CellMerged(s.table, s.buffer, c, m);
      }
    }
  }

  lemma RunLast(u: Setup, ops: seq<Op>, op: Op)
    ensures Run(u, ops + [op]) == Step(u, Run(u, ops), op)
    ensures Fed(ops + [op]) == if op.Feed? then Fed(ops) + [op.o] else Fed(ops)
  {
    assert (ops + [op])[..|ops|] == ops;
  }

  // ---- gates

  lemma {:induction false} RecordedAllAgree(p: Policy, g: Gates, log: seq<Event>, clock: Time, at: Time, ip: string,
                                            ds: seq<Decision>, muted: set<string>)
    requires GatesAgree(g, log, clock) && clock <= at
    ensures var (g', log') := RecordedAll(p, g, log, at, ip, ds, muted);
            log' == NaiveRecordedAll(p, log, at, ip, ds, muted) && GatesAgree(g', log', at)
  {
    if ds == [] {
      GatesLater(g, log, clock, at);
    } else {
      RecordedAllAgree(p, g, log, clock, at, ip, ds[..|ds| - 1], muted);
      var (g', log') := RecordedAll(p, g, log, at, ip, ds[..|ds| - 1], muted);
      RecordedAgrees(p, g', log', at, Report(at, ip, ds[|ds| - 1], muted, false));
    }
  }

  lemma GatesLater(g: Gates, log: seq<Event>, clock: Time, at: Time)
    requires GatesAgree(g, log, clock) && clock <= at
    ensures GatesAgree(g, log, at)
  {
  }

  lemma {:induction false} NaiveAllSpaced(p: Policy, log: seq<Event>, at: Time, ip: string, ds: seq<Decision>,
                                          muted: set<string>)
    requires Spaced(log, false, EVENT_SUPPRESS) && Spaced(log, true, ALERT_COOLDOWN)
    ensures var log' := NaiveRecordedAll(p, log, at, ip, ds, muted);
            Spaced(log', false, EVENT_SUPPRESS) && Spaced(log', true, ALERT_COOLDOWN)
  {
    if ds != [] {
      NaiveAllSpaced(p, log, at, ip, ds[..|ds| - 1], muted);
      NaiveKeepsSpacing(p, NaiveRecordedAll(p, log, at, ip, ds[..|ds| - 1], muted),
                        Report(at, ip, ds[|ds| - 1], muted, false));
    }
  }

  lemma StepKeepsGates(u: Setup, s: State, clock: Time, op: Op)
    requires GatesAgree(s.gates, s.log, clock) && clock <= TimeOf(op)
    ensures GatesAgree(Step(u, s, op).gates, Step(u, s, op).log, TimeOf(op))
  {
    match op
    case Feed(o, verdict, muted) =>
      RecordedAllAgree(u.policy, s.gates, s.log, clock, o.at, o.rec.ip,
                       Observe(u.cfg, s.tracks, verdict, o.rec, o.at).1, muted);
    case Raise(r) =>
      RecordedAgrees(u.policy, s.gates, s.log, clock, r);
    case Flush(at, force) =>
      GatesLater(s.gates, s.log, clock, at);
      PrunedGatesAgree(s.gates, s.log, clock, at);
  }

  lemma StepKeepsSpacing(u: Setup, s: State, clock: Time, op: Op)
    requires GatesAgree(s.gates, s.log, clock) && clock <= TimeOf(op)
    requires Spaced(s.log, false, EVENT_SUPPRESS) && Spaced(s.log, true, ALERT_COOLDOWN)
    ensures Spaced(Step(u, s, op).log, false, EVENT_SUPPRESS) && Spaced(Step(u, s, op).log, true, ALERT_COOLDOWN)
  {
    match op
    case Feed(o, verdict, muted) =>
      var ds := Observe(u.cfg, s.tracks, verdict, o.rec, o.at).1;
      RecordedAllAgree(u.policy, s.gates, s.log, clock, o.at, o.rec.ip, ds, muted);
      NaiveAllSpaced(u.policy, s.log, o.at, o.rec.ip, ds, muted);
    case Raise(r) =>
      RecordedAgrees(u.policy, s.gates, s.log, clock, r);
      NaiveKeepsSpacing(u.policy, s.log, r);
    case Flush(at, force) =>
  }

  /** On every run, whatever the rules: the gates answer as the events table does, events
      of a key are at least 600 seconds apart and alerts of a key at least 1800. */
  lemma {:induction false} RunIsSpaced(u: Setup, ops: seq<Op>)
    requires Ordered(ops)
    ensures GatesAgree(Run(u, ops).gates, Run(u, ops).log, Clock(ops))
    ensures Spaced(Run(u, ops).log, false, EVENT_SUPPRESS) && Spaced(Run(u, ops).log, true, ALERT_COOLDOWN)
  {
    if ops != [] {
      var before := ops[..|ops| - 1];
      RunIsSpaced(u, before);
      StepKeepsGates(u, Run(u, before), Clock(before), ops[|ops| - 1]);
      StepKeepsSpacing(u, Run(u, before), Clock(before), ops[|ops| - 1]);
    }
  }

  /** On every run, any span of L seconds holds at most 1 + floor(L / 1800) alerts of a key. */
  lemma RunBoundsAlerts(u: Setup, ops: seq<Op>, ip: string, rule: string, a: Time, span: Time)
    requires Ordered(ops) && span >= 0.0
    ensures AlertsIn(Run(u, ops).log, ip, rule, a, span) <= 1 + (span / ALERT_COOLDOWN).Floor
  {
    RunIsSpaced(u, ops);
    AlertsBounded(Run(u, ops).log, ip, rule, a, span);
  }

  // ---- callbacks

  /** Alerts are severe enough and not routine noise; the ban callback ran exactly for high
      events of a ban rule from an address that may be banned. */
  ghost predicate Justified(p: Policy, e: Event) {
    && (e.alerted ==> Rank(e.severity) >= Rank(p.minSeverity) && !Routine(p, e.ip, e.rule))
    && (e.banned <==>
          p.autoban && e.severity == High && e.rule in p.banRules && e.ip != "" && !p.trusted(e.ip)
          && (p.internal(e.ip) ==> p.autobanPrivate))
  }

  ghost predicate AllJustified(p: Policy, log: seq<Event>) {
    forall i :: 0 <= i < |log| ==> Justified(p, log[i])
  }

  lemma RecordedJustified(p: Policy, g: Gates, log: seq<Event>, r: Report)
    requires AllJustified(p, log)
    ensures AllJustified(p, Recorded(p, g, log, r).1)
  {
  }

  lemma {:induction false} RecordedAllJustified(p: Policy, g: Gates, log: seq<Event>, at: Time, ip: string,
                                                ds: seq<Decision>, muted: set<string>)
    requires AllJustified(p, log)
    ensures AllJustified(p, RecordedAll(p, g, log, at, ip, ds, muted).1)
  {
    if ds != [] {
      RecordedAllJustified(p, g, log, at, ip, ds[..|ds| - 1], muted);
      var (g', log') := RecordedAll(p, g, log, at, ip, ds[..|ds| - 1], muted);
      RecordedJustified(p, g', log', Report(at, ip, ds[|ds| - 1], muted, false));
    }
  }

  /** On every run, every alert had its reasons, and the ban callback ran for a row exactly if
      it had. */
  lemma {:induction false} RunJustifiesCalls(u: Setup, ops: seq<Op>)
    ensures AllJustified(u.policy, Run(u, ops).log)
  {
    if ops != [] {
      var s, op := Run(u, ops[..|ops| - 1]), ops[|ops| - 1];
      RunJustifiesCalls(u, ops[..|ops| - 1]);
      match op
      case Feed(o, verdict, muted) =>
        RecordedAllJustified(u.policy, s.gates, s.log, o.at, o.rec.ip,
                             Observe(u.cfg, s.tracks, verdict, o.rec, o.at).1, muted);
      case Raise(r) => RecordedJustified(u.policy, s.gates, s.log, r);
      case Flush(_, _) =>
    }
  }

  /** The row is of the operation, and the alert callback ran for it if and only if it is not
      record-only, severe enough, not routine, not muted, and the key had no alert in the
      1800 s before. */
  ghost predicate AlertedBy(u: Setup, op: Op, log: seq<Event>, j: nat)
    requires j < |log|
  {
    match op
    case Feed(o, _, muted) =>
      && log[j].ts == o.at && log[j].ip == o.rec.ip && (log[j].alerted <==> MayAlert(u.policy, log, j, muted))
    case Raise(r) => Stems(r, log[j]) && (log[j].alerted <==> !r.recordOnly && MayAlert(u.policy, log, j, r.muted))
    case Flush(_, _) => false
  }

  ghost predicate MayAlert(p: Policy, log: seq<Event>, j: nat, muted: set<string>)
    requires j < |log|
  {
    var e := log[j];
    && Rank(e.severity) >= Rank(p.minSeverity) && !Routine(p, e.ip, e.rule) && e.rule !in muted
    && Clear(log[..j], e.ip, e.rule, true, 1800.0, e.ts)
  }

  lemma {:induction false} AllAlertedRight(p: Policy, g: Gates, log: seq<Event>, clock: Time, at: Time, ip: string,
                                           ds: seq<Decision>, muted: set<string>, j: nat)
    requires GatesAgree(g, log, clock) && clock <= at
    ensures var log' := RecordedAll(p, g, log, at, ip, ds, muted).1;
            && log <= log'
            && (|log| <= j < |log'| ==>
                  log'[j].ts == at && log'[j].ip == ip && (log'[j].alerted <==> MayAlert(p, log', j, muted)))
  {
    if ds != [] {
      var n := |ds| - 1;
      AllAlertedRight(p, g, log, clock, at, ip, ds[..n], muted, j);
      RecordedAllAgree(p, g, log, clock, at, ip, ds[..n], muted);
      var (g', log') := RecordedAll(p, g, log, at, ip, ds[..n], muted);
      OneAlertedRight(p, g', log', at, Report(at, ip, ds[n], muted, false), j);
    }
  }

  lemma OneAlertedRight(p: Policy, g: Gates, log: seq<Event>, clock: Time, r: Report, j: nat)
    requires GatesAgree(g, log, clock) && clock <= r.at
    ensures var log' := Recorded(p, g, log, r).1;
            && log <= log'
            && (j < |log| ==> (MayAlert(p, log', j, r.muted) <==> MayAlert(p, log, j, r.muted)))
            && (|log| <= j < |log'| ==>
                  Stems(r, log'[j]) && (log'[j].alerted <==> !r.recordOnly && MayAlert(p, log', j, r.muted)))
  {
    var log' := Recorded(p, g, log, r).1;
    AlertsIff(p, g, log, clock, r);
    if j < |log| {
      assert log'[..j] == log[..j];
    } else if log' != log {
      assert log'[..|log|] == log;
      assert log'[|log|].alerted <==> AlertsOf(log') != AlertsOf(log);
    }
  }

  ghost predicate AlertedInTurn(u: Setup, ops: seq<Op>, log: seq<Event>, j: nat)
    requires j < |log|
  {
    exists k :: 0 <= k < |ops| && AlertedBy(u, ops[k], log, j)
  }

  /** On every ordered run, every row of the events table is of some operation, and the alert
      callback ran for it if and only if that operation's event had to alert. */
  lemma {:induction false} RunAlertsIff(u: Setup, ops: seq<Op>, j: nat)
    requires Ordered(ops) && j < |Run(u, ops).log|
    ensures AlertedInTurn(u, ops, Run(u, ops).log, j)
  {
    if ops != [] {
      var before, op := ops[..|ops| - 1], ops[|ops| - 1];
      var s, log := Run(u, before), Run(u, ops).log;
      RunIsSpaced(u, before);
      StepAlertsRight(u, s, Clock(before), op, j);
      if j < |s.log| {
        RunAlertsIff(u, before, j);
        var k :| 0 <= k < |before| && AlertedBy(u, before[k], s.log, j);
        AlertedStays(u, before[k], s.log, log, j);
        assert AlertedBy(u, ops[k], log, j);
      } else {
        assert AlertedBy(u, ops[|ops| - 1], log, j);
      }
    }
  }

  lemma AlertedStays(u: Setup, op: Op, log: seq<Event>, log': seq<Event>, j: nat)
    requires log <= log' && j < |log| && AlertedBy(u, op, log, j)
    ensures AlertedBy(u, op, log', j)
  {
    assert log'[..j] == log[..j];
  }

  lemma StepAlertsRight(u: Setup, s: State, clock: Time, op: Op, j: nat)
    requires GatesAgree(s.gates, s.log, clock) && clock <= TimeOf(op)
    ensures s.log <= Step(u, s, op).log
    ensures |s.log| <= j < |Step(u, s, op).log| ==> AlertedBy(u, op, Step(u, s, op).log, j)
  {
    match op
    case Feed(o, verdict, muted) =>
      AllAlertedRight(u.policy, s.gates, s.log, clock, o.at, o.rec.ip,
                      Observe(u.cfg, s.tracks, verdict, o.rec, o.at).1, muted, j);
    case Raise(r) => OneAlertedRight(u.policy, s.gates, s.log, clock, r, j);
    case Flush(_, _) =>
  }

  /** The report does not call the ban callback. */
  ghost predicate Harmless(u: Setup, ops: seq<Op>, r: Report) {
    BansOf(Run(u, ops + [Raise(r)]).log) == BansOf(Run(u, ops).log)
  }

  ghost predicate ReportsOnly(ops: seq<Op>, r: Report) { Ordered(ops + [Raise(r)]) && r.recordOnly }

  /** On no run does a record-only report call the ban callback. */
  ghost predicate RunsNeverBanRecordOnly(u: Setup) {
    forall ops, r: Report {:trigger Harmless(u, ops, r)} :: ReportsOnly(ops, r) ==> Harmless(u, ops, r)
  }

  lemma HarmlessIff(u: Setup, ops: seq<Op>, r: Report)
    ensures Harmless(u, ops, r) <==>
              BansOf(Recorded(u.policy, Run(u, ops).gates, Run(u, ops).log, r).1) == BansOf(Run(u, ops).log)
  {
    RunLast(u, ops, Raise(r));
  }

  /** A high record-only report whose gate is open bans, if the policy bans its rule and address. */
  lemma OpenGateBans(u: Setup, ops: seq<Op>, r: Report)
    requires r.recordOnly && GateOpen(Run(u, ops).gates, r) && u.policy.autoban && r.what.severity == High
    requires r.what.rule in u.policy.banRules && Bannable(u.policy, r.ip)
    ensures !Harmless(u, ops, r)
  {
    RecordOnlyBansIff(u.policy, Run(u, ops).gates, Run(u, ops).log, r);
    HarmlessIff(u, ops, r);
  }

  lemma FirstReport(u: Setup, ops: seq<Op>, r: Report)
    requires ops == [] && r.recordOnly && r.at >= 0.0
    ensures ReportsOnly(ops, r) && GateOpen(Run(u, ops).gates, r)
  {
    assert ops + [Raise(r)] == [Raise(r)];
  }

  lemma NothingToBan(u: Setup, ops: seq<Op>, r: Report)
    requires BansNothing(u.policy) && r.recordOnly
    ensures Harmless(u, ops, r)
  {
    RecordOnlyBansIff(u.policy, Run(u, ops).gates, Run(u, ops).log, r);
    HarmlessIff(u, ops, r);
  }

  lemma SomethingToBan(u: Setup, rule: string, ip: string)
    requires u.policy.autoban && rule in u.policy.banRules && Bannable(u.policy, ip)
    ensures !RunsNeverBanRecordOnly(u)
  {
    var r := Report(1.0, ip, Decision(rule, High, 1), {}, true);
    FirstReport(u, [], r);
    OpenGateBans(u, [], r);
  }

  /** The same over runs: the comment that record-only events never re-ban is right exactly
      when the policy bans nothing at all. */
  lemma RunRecordOnlyNeverBansIff(u: Setup)
    ensures RunsNeverBanRecordOnly(u) <==> BansNothing(u.policy)
  {
    if BansNothing(u.policy) {
      forall ops, r: Report | ReportsOnly(ops, r) ensures Harmless(u, ops, r) {
        NothingToBan(u, ops, r);
      }
    } else {
      var rule :| rule in u.policy.banRules;
      var ip :| Bannable(u.policy, ip);
      SomethingToBan(u, rule, ip);
    }
  }

  // ---- windows

  /** The number that rule `i` compares with its limit when a record arrives after a run. */
  function Judged(u: Setup, ops: seq<Op>, i: nat, o: Sighting): nat
    requires i < |u.cfg.rules|
  {
    Compared(u.cfg, Run(u, ops).tracks, o, i)
  }

  /** The number that the whole history gives for its window. */
  function Recounted(u: Setup, ops: seq<Op>, i: nat, o: Sighting): nat
    requires i < |u.cfg.rules|
  {
    NaiveRuleCount(u.cfg, Fed(ops) + [o], u.cfg.rules[i], o.rec.ip, o.at)
  }

  lemma StepKeepsTracks(u: Setup, s: State, h: seq<Sighting>, clock: Time, op: Op)
    requires Agrees(u.cfg, s.tracks, h, clock) && clock <= TimeOf(op)
    ensures Agrees(u.cfg, Step(u, s, op).tracks, if op.Feed? then h + [op.o] else h, TimeOf(op))
  {
    match op
    case Feed(o, verdict, muted) => FeedKeeps(u.cfg, s.tracks, h, clock, o, verdict);
    case Raise(r) => AgreesLater(u.cfg, s.tracks, h, clock, r.at);
    case Flush(at, force) =>
      AgreesLater(u.cfg, s.tracks, h, clock, at);
      PruneKeeps(u.cfg, s.tracks, h, clock, at);
  }

  /** On every run the windows of every IP, and of every sound rule, agree with the whole
      history. */
  lemma {:induction false} RunKeepsTracks(u: Setup, ops: seq<Op>)
    requires Ordered(ops)
    ensures Agrees(u.cfg, Run(u, ops).tracks, Fed(ops), Clock(ops))
  {
    if ops == [] {
      FreshAgrees(u.cfg, 0.0);
    } else {
      var before := ops[..|ops| - 1];
      RunKeepsTracks(u, before);
      StepKeepsTracks(u, Run(u, before), Fed(before), Clock(before), ops[|ops| - 1]);
    }
  }

  lemma {:induction false} NaiveHistory(u: Setup, ops: seq<Op>)
    ensures NaiveRun(u, ops).history == Fed(ops)
  {
    if ops != [] {
      NaiveHistory(u, ops[..|ops| - 1]);
    }
  }

  /** The engine that trims, purges, prunes and gates writes exactly the events table,
      alerts and bans of the naive engine that keeps every record, on every run. */
  lemma {:induction false} RunRefinesNaive(u: Setup, ops: seq<Op>)
    requires WellFormed(u.cfg) && AllExact(u.cfg) && Ordered(ops)
    ensures Run(u, ops).log == NaiveRun(u, ops).log
  {
    if ops != [] {
      var before, op := ops[..|ops| - 1], ops[|ops| - 1];
      RunRefinesNaive(u, before);
      RunIsSpaced(u, before);
      RunKeepsTracks(u, before);
      NaiveHistory(u, before);
      StepRefinesNaive(u, Run(u, before), NaiveRun(u, before), Clock(before), op);
    }
  }

  lemma StepRefinesNaive(u: Setup, s: State, n: Naive, clock: Time, op: Op)
    requires WellFormed(u.cfg) && AllExact(u.cfg) && clock <= TimeOf(op)
    requires Agrees(u.cfg, s.tracks, n.history, clock) && GatesAgree(s.gates, s.log, clock) && s.log == n.log
    ensures Step(u, s, op).log == NaiveStep(u, n, op).log
  {
    match op
    case Feed(o, verdict, muted) =>
      FeedDecides(u.cfg, s.tracks, n.history, clock, o, verdict);
      RecordedAllAgree(u.policy, s.gates, s.log, clock, o.at, o.rec.ip,
                       Observe(u.cfg, s.tracks, verdict, o.rec, o.at).1, muted);
    case Raise(r) =>
      RecordedAgrees(u.policy, s.gates, s.log, clock, r);
    case Flush(at, force) =>
  }

  // ---- counters

  /** At every point of every run, for every minute: table plus buffer is what was fed,
      and both are balanced. */
  lemma {:induction false} RunConservesTraffic(u: Setup, ops: seq<Op>)
    ensures Accounted(Run(u, ops).table, Run(u, ops).buffer, Fed(ops))
    ensures Balanced(Run(u, ops).table) && Balanced(Run(u, ops).buffer)
  {
    if ops == [] {
      NoneBalanced();
    } else {
      var before, op := ops[..|ops| - 1], ops[|ops| - 1];
      var s := Run(u, before);
      RunConservesTraffic(u, before);
      match op
      case Feed(o, _, _) =>
        FeedAccounts(s.table, s.buffer, Fed(before), o);
        FeedBalances(s.buffer, o);
      case Raise(_) =>
      case Flush(at, force) =>
        FlushAccounts(s.table, s.buffer, Fed(before));
        FlushBalances(s.table, s.buffer);
        NoneBalanced();
    }
  }
}
