/** What the engine has left after an hour of silence (secwatch/detect.py): no stamp in a
    rule's deque or dictionary is newer than the last record, and a flush more than an
    hour later empties them all. */
module Forgetting {
  import opened Collections
  import opened Windows
  import opened Detect
  import opened DetectExact
  import opened Engine

  /** No stored stamp is later than `t`. */
  ghost predicate StampsBy(w: Tracks, t: Time) {
    && (forall key, i :: key in w.win && 0 <= i < |w.win[key]| ==> w.win[key][i] <= t)
    && (forall key, id :: key in w.ids && id in w.ids[key] ==> w.ids[key][id] <= t)
  }

  lemma {:induction false} TrimmedBy(s: seq<Time>, cutoff: Time, t: Time)
    requires forall i :: 0 <= i < |s| ==> s[i] <= t
    ensures forall i :: 0 <= i < |Trimmed(s, cutoff)| ==> Trimmed(s, cutoff)[i] <= t
  {
    if s != [] && s[0] < cutoff {
      TrimmedBy(s[1..], cutoff, t);
    }
  }

  lemma CheckRuleStamps(r: EndpointRule, w: Tracks, rec: Record, now: Time)
    requires StampsBy(w, now)
    ensures StampsBy(CheckRule(r, w, rec, now).0, now)
  {
    if Windowed(r) {
      TrimmedBy(Get(w.win, (r.name, rec.ip), []) + [now], now - r.window as real, now);
    }
  }

  lemma {:induction false} CheckRulesStamps(rules: seq<EndpointRule>, w: Tracks, rec: Record, now: Time, k: nat)
    requires StampsBy(w, now) && k <= |rules|
    ensures StampsBy(CheckRules(rules, w, rec, now, k).0, now)
  {
    if k > 0 {
      CheckRulesStamps(rules, w, rec, now, k - 1);
      CheckRuleStamps(rules[k - 1], CheckRules(rules, w, rec, now, k - 1).0, rec, now);
    }
  }

  lemma StepStamps(u: Setup, s: State, op: Op, t: Time)
    requires StampsBy(s.tracks, t) && t <= TimeOf(op)
    ensures StampsBy(Step(u, s, op).tracks, TimeOf(op))
  {
    match op
    case Feed(o, verdict, muted) =>
      if !u.cfg.trusted(o.rec.ip) {
        var entered := s.tracks.(ips := s.tracks.ips[o.rec.ip := Updated(u.cfg, s.tracks, o.rec, o.at)]);
        CheckRulesStamps(u.cfg.rules, entered, o.rec, o.at, |u.cfg.rules|);
      }
    case Raise(r) =>
    case Flush(at, force) =>
  }

  lemma {:induction false} RunStamps(u: Setup, ops: seq<Op>)
    requires Ordered(ops)
    ensures StampsBy(Run(u, ops).tracks, Clock(ops))
  {
    if ops != [] {
      RunStamps(u, ops[..|ops| - 1]);
      StepStamps(u, Run(u, ops[..|ops| - 1]), ops[|ops| - 1], Clock(ops[..|ops| - 1]));
    }
  }

  /** A flush more than an hour after everything else forgets every rule window. */
  lemma HourForgets(u: Setup, ops: seq<Op>, at: Time)
    requires Ordered(ops) && at > Clock(ops) + STALE_SECS
    ensures Run(u, ops + [Flush(at, true)]).tracks.win == map[]
    ensures Run(u, ops + [Flush(at, true)]).tracks.ids == map[]
  {
    RunStamps(u, ops);
    RunLast(u, ops, Flush(at, true));
  }

  lemma OrderedMore(ops: seq<Op>, op: Op)
    requires Ordered(ops) && Clock(ops) <= TimeOf(op) && TimeOf(op) >= 0.0
    ensures Ordered(ops + [op]) && Clock(ops + [op]) == TimeOf(op)
  {
    assert forall i :: 0 <= i < |ops| ==> (ops + [op])[i] == ops[i];
  }
}
