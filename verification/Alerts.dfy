/** Event suppression, the alert cooldown and the auto-ban hook of `Engine._event`
    (secwatch/detect.py), against a naive reading of the events table. */
module Alerts {
  import opened Collections
  import opened Windows
  import opened Detect

  const EVENT_SUPPRESS := 600.0
  const ALERT_COOLDOWN := 1800.0

  datatype Policy = Policy(
    minSeverity: Severity, quietRules: set<string>, quietExceptPrivate: bool,
    autoban: bool, banRules: set<string>, autobanPrivate: bool,
    trusted: string -> bool, internal: string -> bool)

  /** A row of the events table; `alerted` and `banned` say whether the alert and the
      ban callback were called for it. */
  datatype Event = Event(ts: Time, ip: string, rule: string, severity: Severity, count: int, alerted: bool,
                         banned: bool)

  /** An event on its way into `_event`. `muted` are the rules muted for it. */
  datatype Report = Report(at: Time, ip: string, what: Decision, muted: set<string>, recordOnly: bool)

  /** `Engine.suppress` and `Engine.alert_gate`, keyed by (ip, rule). */
  datatype Gates = Gates(suppress: map<(string, string), Time>, alertGate: map<(string, string), Time>)

  const OPEN_GATES := Gates(map[], map[])

  /** Everything that decides about an alert except the cooldown. */
  predicate WantsAlert(p: Policy, r: Report) {
    && !r.recordOnly
    && Rank(r.what.severity) >= Rank(p.minSeverity)
    && !(r.what.rule in p.quietRules && !(p.quietExceptPrivate && r.ip != "" && p.internal(r.ip)))
    && r.what.rule !in r.muted
  }

  /** Whether the ban callback runs for a recorded event. The code does not look at
      `record_only` here, although its comment says that such events never re-ban. */
  predicate WantsBan(p: Policy, r: Report) {
    && p.autoban && r.what.severity == High && r.what.rule in p.banRules
    && r.ip != "" && !p.trusted(r.ip) && (p.autobanPrivate || !p.internal(r.ip))
  }

  function EventOf(p: Policy, r: Report, alert: bool): Event {
    Event(r.at, r.ip, r.what.rule, r.what.severity, r.what.count, alert, WantsBan(p, r))
  }

  /** `_event`: the gates and the events table afterwards. */
  function Recorded(p: Policy, g: Gates, log: seq<Event>, r: Report): (Gates, seq<Event>) {
    var key := (r.ip, r.what.rule);
    if Get(g.suppress, key, 0.0) > r.at then (g, log)
    else
      var alert := WantsAlert(p, r) && Get(g.alertGate, key, 0.0) <= r.at;
      (Gates(g.suppress[key := r.at + EVENT_SUPPRESS],
             if alert then g.alertGate[key := r.at + ALERT_COOLDOWN] else g.alertGate),
       log + [EventOf(p, r, alert)])
  }

  /** The part of `_prune_idle` that forgets gates. */
  function PrunedGates(g: Gates, now: Time): Gates {
    Gates(map k | k in g.suppress && g.suppress[k] >= now :: g.suppress[k],
          map k | k in g.alertGate && g.alertGate[k] >= now :: g.alertGate[k])
  }

  // ---- the naive reading

  predicate Concerns(e: Event, ip: string, rule: string, onlyAlerted: bool) {
    e.ip == ip && e.rule == rule && (onlyAlerted ==> e.alerted)
  }

  /** Every event (or alerted event) of the key is at least `gap` old. */
  predicate Clear(log: seq<Event>, ip: string, rule: string, onlyAlerted: bool, gap: Time, now: Time) {
    forall i :: 0 <= i < |log| && Concerns(log[i], ip, rule, onlyAlerted) ==> log[i].ts + gap <= now
  }

  /** `_event` without gates: look the last ten and thirty minutes up in the table. */
  function NaiveRecorded(p: Policy, log: seq<Event>, r: Report): seq<Event> {
    if !Clear(log, r.ip, r.what.rule, false, EVENT_SUPPRESS, r.at) then log
    else log + [EventOf(p, r, WantsAlert(p, r) && Clear(log, r.ip, r.what.rule, true, ALERT_COOLDOWN, r.at))]
  }

  /** From `clock` on, the gates answer as the table does. */
  ghost predicate GatesAgree(g: Gates, log: seq<Event>, clock: Time) {
    && clock >= 0.0
    && (forall ip, rule, t {:trigger Clear(log, ip, rule, false, EVENT_SUPPRESS, t)} :: t >= clock ==>
          (Get(g.suppress, (ip, rule), 0.0) <= t <==> Clear(log, ip, rule, false, EVENT_SUPPRESS, t)))
    && (forall ip, rule, t {:trigger Clear(log, ip, rule, true, ALERT_COOLDOWN, t)} :: t >= clock ==>
          (Get(g.alertGate, (ip, rule), 0.0) <= t <==> Clear(log, ip, rule, true, ALERT_COOLDOWN, t)))
  }

  lemma ClearAfter(log: seq<Event>, e: Event, ip: string, rule: string, onlyAlerted: bool, gap: Time, t: Time)
    ensures Clear(log + [e], ip, rule, onlyAlerted, gap, t)
       <==> Clear(log, ip, rule, onlyAlerted, gap, t) && (Concerns(e, ip, rule, onlyAlerted) ==> e.ts + gap <= t)
  {
    var log' := log + [e];
    assert log'[|log|] == e;
    if Clear(log', ip, rule, onlyAlerted, gap, t) {
      forall i | 0 <= i < |log| && Concerns(log[i], ip, rule, onlyAlerted)
        ensures log[i].ts + gap <= t
      {
        assert log'[i] == log[i];
      }
    }
  }

  lemma ClearLater(log: seq<Event>, ip: string, rule: string, onlyAlerted: bool, gap: Time, t: Time, t': Time)
    requires Clear(log, ip, rule, onlyAlerted, gap, t) && t <= t'
    ensures Clear(log, ip, rule, onlyAlerted, gap, t')
  {
  }

  /** One event: the gated engine and the naive one append the same row, or none, and
      the gates still agree with the table. */
  lemma RecordedAgrees(p: Policy, g: Gates, log: seq<Event>, clock: Time, r: Report)
    requires GatesAgree(g, log, clock) && clock <= r.at
    ensures var (g', log') := Recorded(p, g, log, r);
            log' == NaiveRecorded(p, log, r) && GatesAgree(g', log', r.at)
  {
    var (g', log') := Recorded(p, g, log, r);
    assert Get(g.suppress, (r.ip, r.what.rule), 0.0) <= r.at
      <==> Clear(log, r.ip, r.what.rule, false, EVENT_SUPPRESS, r.at);
    assert Get(g.alertGate, (r.ip, r.what.rule), 0.0) <= r.at
      <==> Clear(log, r.ip, r.what.rule, true, ALERT_COOLDOWN, r.at);
    if log' != log {
      forall ip, rule, t | t >= r.at
        ensures Get(g'.suppress, (ip, rule), 0.0) <= t <==> Clear(log', ip, rule, false, EVENT_SUPPRESS, t)
      {
        ClearAfter(log, log'[|log|], ip, rule, false, EVENT_SUPPRESS, t);
        if Clear(log, r.ip, r.what.rule, false, EVENT_SUPPRESS, r.at) {
          ClearLater(log, r.ip, r.what.rule, false, EVENT_SUPPRESS, r.at, t);
        }
      }
      forall ip, rule, t | t >= r.at
        ensures Get(g'.alertGate, (ip, rule), 0.0) <= t <==> Clear(log', ip, rule, true, ALERT_COOLDOWN, t)
      {
        ClearAfter(log, log'[|log|], ip, rule, true, ALERT_COOLDOWN, t);
        if Clear(log, r.ip, r.what.rule, true, ALERT_COOLDOWN, r.at) {
          ClearLater(log, r.ip, r.what.rule, true, ALERT_COOLDOWN, r.at, t);
        }
      }
    }
  }

  /** Forgetting gates that ran out is invisible. */
  lemma PrunedGatesAgree(g: Gates, log: seq<Event>, clock: Time, now: Time)
    requires GatesAgree(g, log, clock) && clock <= now
    ensures GatesAgree(PrunedGates(g, now), log, now)
  {
    var g' := PrunedGates(g, now);
    forall ip, rule, t | t >= now
      ensures Get(g'.suppress, (ip, rule), 0.0) <= t <==> Clear(log, ip, rule, false, EVENT_SUPPRESS, t)
      ensures Get(g'.alertGate, (ip, rule), 0.0) <= t <==> Clear(log, ip, rule, true, ALERT_COOLDOWN, t)
    {
      assert Get(g.suppress, (ip, rule), 0.0) <= t <==> Clear(log, ip, rule, false, EVENT_SUPPRESS, t);
      assert Get(g.alertGate, (ip, rule), 0.0) <= t <==> Clear(log, ip, rule, true, ALERT_COOLDOWN, t);
    }
  }

  // ---- spacing

  /** Any two events of a key are `gap` apart. */
  ghost predicate Spaced(log: seq<Event>, onlyAlerted: bool, gap: Time) {
    forall i, j, ip, rule ::
      0 <= i < j < |log| && Concerns(log[i], ip, rule, onlyAlerted) && Concerns(log[j], ip, rule, onlyAlerted)
      ==> log[i].ts + gap <= log[j].ts
  }

  /** The naive engine keeps the table spaced, ten minutes per event and thirty per alert. */
  lemma NaiveKeepsSpacing(p: Policy, log: seq<Event>, r: Report)
    requires Spaced(log, false, EVENT_SUPPRESS) && Spaced(log, true, ALERT_COOLDOWN)
    ensures Spaced(NaiveRecorded(p, log, r), false, EVENT_SUPPRESS)
    ensures Spaced(NaiveRecorded(p, log, r), true, ALERT_COOLDOWN)
  {
  }

  /** How many alerts of a key fall into the closed span from `a` of length `span`. */
  function AlertsIn(log: seq<Event>, ip: string, rule: string, a: Time, span: Time): nat {
    if log == [] then 0
    else
      var e := log[|log| - 1];
      AlertsIn(log[..|log| - 1], ip, rule, a, span)
      + (if Concerns(e, ip, rule, true) && a <= e.ts <= a + span then 1 else 0)
  }

  /** When the last of n alerts of a span came, n - 1 cooldowns of the span were over. */
  lemma {:induction false} AlertsTakeTime(log: seq<Event>, ip: string, rule: string, a: Time, span: Time, t: Time)
    requires Spaced(log, true, ALERT_COOLDOWN)
    requires forall i :: 0 <= i < |log| && Concerns(log[i], ip, rule, true) ==> log[i].ts <= t
    requires AlertsIn(log, ip, rule, a, span) > 0
    ensures a + (AlertsIn(log, ip, rule, a, span) - 1) as real * ALERT_COOLDOWN <= t
    ensures (AlertsIn(log, ip, rule, a, span) - 1) as real * ALERT_COOLDOWN <= span
  {
    var front, e := log[..|log| - 1], log[|log| - 1];
    if Concerns(e, ip, rule, true) && a <= e.ts <= a + span {
      if AlertsIn(front, ip, rule, a, span) > 0 {
        AlertsTakeTime(front, ip, rule, a, span, e.ts - ALERT_COOLDOWN);
      }
    } else {
      AlertsTakeTime(front, ip, rule, a, span, t);
    }
  }

  /** Any span of L seconds holds at most 1 + floor(L / 1800) alerts of a key. */
  lemma AlertsBounded(log: seq<Event>, ip: string, rule: string, a: Time, span: Time)
    requires Spaced(log, true, ALERT_COOLDOWN) && span >= 0.0
    ensures AlertsIn(log, ip, rule, a, span) <= 1 + (span / ALERT_COOLDOWN).Floor
  {
    var n := AlertsIn(log, ip, rule, a, span);
    if n > 0 {
      var t := Latest(log);
      AlertsTakeTime(log, ip, rule, a, span, t);
      assert (n - 1) as real <= span / ALERT_COOLDOWN;
    }
  }

  ghost function Latest(log: seq<Event>): (t: Time)
    ensures forall i :: 0 <= i < |log| ==> log[i].ts <= t
  {
    if log == [] then 0.0
    else
      var t, last := Latest(log[..|log| - 1]), log[|log| - 1].ts;
      if last > t then last else t
  }

  // ---- callbacks

  /** The events whose alert callback ran, and those whose ban callback ran. */
  function AlertsOf(log: seq<Event>): seq<Event> {
    if log == [] then []
    else AlertsOf(log[..|log| - 1]) + (if log[|log| - 1].alerted then [log[|log| - 1]] else [])
  }

  function BansOf(log: seq<Event>): seq<Event> {
    if log == [] then []
    else BansOf(log[..|log| - 1]) + (if log[|log| - 1].banned then [log[|log| - 1]] else [])
  }

  /** Whether anything is written for a report: the suppress gate of its key is open. */
  predicate GateOpen(g: Gates, r: Report) { Get(g.suppress, (r.ip, r.what.rule), 0.0) <= r.at }

  /** An address that auto-ban may be called for. */
  predicate Bannable(p: Policy, ip: string) {
    ip != "" && !p.trusted(ip) && (p.autobanPrivate || !p.internal(ip))
  }

  /** Exactly when a report of any kind calls the ban callback: its gate is open, and the
      policy bans its severity, rule and address. */
  lemma BansIff(p: Policy, g: Gates, log: seq<Event>, r: Report)
    ensures var log' := Recorded(p, g, log, r).1;
            BansOf(log') == BansOf(log)
              + (if GateOpen(g, r) && p.autoban && r.what.severity == High
                    && r.what.rule in p.banRules && Bannable(p, r.ip)
                 then [log'[|log'| - 1]] else [])
  {
    var log' := Recorded(p, g, log, r).1;
    if GateOpen(g, r) {
      assert log'[..|log'| - 1] == log;
    }
  }

  lemma RankOrders()
    ensures Rank(Info) < Rank(Low) < Rank(Medium) < Rank(High)
  {
  }

  /** Noise that a quiet rule makes outside the network, where such noise stays quiet. */
  predicate Routine(p: Policy, ip: string, rule: string) {
    rule in p.quietRules && (!p.quietExceptPrivate || ip == "" || !p.internal(ip))
  }

  /** What a report leaves in the events table: nothing if its key had an event in the last
      600 s; otherwise its own row, for which the alert callback runs if and only if it is
      not record-only, severe enough, not routine and not muted, and the key had no alert in
      the last 1800 s. */
  lemma AlertsIff(p: Policy, g: Gates, log: seq<Event>, clock: Time, r: Report)
    requires GatesAgree(g, log, clock) && clock <= r.at
    ensures var log' := Recorded(p, g, log, r).1;
            if !Clear(log, r.ip, r.what.rule, false, 600.0, r.at) then log' == log
            else
              && |log'| == |log| + 1 && log'[..|log|] == log && Stems(r, log'[|log|])
              && AlertsOf(log') == AlertsOf(log)
                   + (if !r.recordOnly && Rank(r.what.severity) >= Rank(p.minSeverity)
                         && !Routine(p, r.ip, r.what.rule) && r.what.rule !in r.muted
                         && Clear(log, r.ip, r.what.rule, true, 1800.0, r.at)
                      then [log'[|log|]] else [])
  {
    var log' := Recorded(p, g, log, r).1;
    assert Get(g.suppress, (r.ip, r.what.rule), 0.0) <= r.at <==> Clear(log, r.ip, r.what.rule, false, 600.0, r.at);
    assert Get(g.alertGate, (r.ip, r.what.rule), 0.0) <= r.at <==> Clear(log, r.ip, r.what.rule, true, 1800.0, r.at);
    if log' != log {
      assert log'[..|log'| - 1] == log;
    }
  }

  /** The row says what the report said. */
  predicate Stems(r: Report, e: Event) {
    e.ts == r.at && e.ip == r.ip && e.rule == r.what.rule && e.severity == r.what.severity && e.count == r.what.count
  }

  /** A record-only report never alerts, but it calls the ban callback as any other does, the
      comment in the code notwithstanding. */
  lemma RecordOnlyBansIff(p: Policy, g: Gates, log: seq<Event>, r: Report)
    requires r.recordOnly
    ensures var log' := Recorded(p, g, log, r).1;
            && AlertsOf(log') == AlertsOf(log)
            && BansOf(log') == BansOf(log)
                 + (if GateOpen(g, r) && p.autoban && r.what.severity == High
                       && r.what.rule in p.banRules && Bannable(p, r.ip)
                    then [log'[|log'| - 1]] else [])
  {
    var log' := Recorded(p, g, log, r).1;
    BansIff(p, g, log, r);
    if GateOpen(g, r) {
      assert log'[..|log'| - 1] == log;
    }
  }

  /** Pruning forgets exactly the gates that ran out before. */
  lemma PrunedGatesAre(g: Gates, now: Time, key: (string, string))
    ensures key in PrunedGates(g, now).suppress <==> key in g.suppress && !(g.suppress[key] < now)
    ensures key in PrunedGates(g, now).alertGate <==> key in g.alertGate && !(g.alertGate[key] < now)
  {
  }

  /** No record-only report can call the ban callback, whatever the gates. */
  ghost predicate NeverBansRecordOnly(p: Policy) {
    forall g, log, r: Report :: r.recordOnly ==> BansOf(Recorded(p, g, log, r).1) == BansOf(log)
  }

  /** A policy that bans nothing at all. */
  ghost predicate BansNothing(p: Policy) {
    !p.autoban || p.banRules == {} || forall ip :: !Bannable(p, ip)
  }

  /** Exactly when the comment is right: when the policy bans nothing at all. */
  lemma RecordOnlyNeverBansIff(p: Policy)
    ensures NeverBansRecordOnly(p) <==> BansNothing(p)
  {
    if BansNothing(p) {
      forall g, log, r: Report | r.recordOnly ensures BansOf(Recorded(p, g, log, r).1) == BansOf(log) {
        RecordOnlyBansIff(p, g, log, r);
      }
    } else {
      var rule :| rule in p.banRules;
      var ip :| Bannable(p, ip);
      var r := Report(1.0, ip, Decision(rule, High, 1), {}, true);
      RecordOnlyBansIff(p, OPEN_GATES, [], r);
      assert BansOf(Recorded(p, OPEN_GATES, [], r).1) != BansOf([]);
    }
  }
}
