/** `detect.Engine` as the object it is: dictionaries, deques and buffers changed in
    place. Every method is tied to the step of `Engine.Step` it performs. */
module EngineObject {
  import opened Collections
  import opened Windows
  import opened Detect
  import opened Alerts
  import opened Traffic
  import opened Engine
  import opened Tail

  /** The upsert loop of a flush over one column. */
  method AddAll<K(==, !new)>(t: map<K, int>, b: map<K, int>) returns (r: map<K, int>)
    ensures r == Added(t, b)
  {
    r := t;
    var todo := b.Keys;
    while todo != {}
      invariant todo <= b.Keys
      invariant r.Keys == t.Keys + (b.Keys - todo)
      invariant forall k :: k in r ==> r[k] == Get(t, k, 0) + (if k in todo then 0 else Get(b, k, 0))
    {
      var k :| k in todo;
      r := r[k := Get(r, k, 0) + b[k]];
      todo := todo - {k};
    }
  }

  /** The deletion loops of the ID purge and of `_prune_idle`. */
  method Without<K(==, !new), V>(m: map<K, V>, doomed: set<K>) returns (r: map<K, V>)
    requires doomed <= m.Keys
    ensures r == map k | k in m && k !in doomed :: m[k]
  {
    r := m;
    var todo := doomed;
    while todo != {}
      invariant todo <= doomed
      invariant r == map k | k in m && k !in doomed - todo :: m[k]
    {
      var k :| k in todo;
      r := r - {k};
      todo := todo - {k};
    }
  }

  /** The upsert loop of a flush over the changed tail offsets. */
  method Overwrite(m: map<string, Mark>, news: map<string, Mark>) returns (r: map<string, Mark>)
    ensures r == m + news
  {
    r := m;
    var todo := news.Keys;
    while todo != {}
      invariant todo <= news.Keys
      invariant r.Keys == m.Keys + (news.Keys - todo)
      invariant forall k :: k in r ==> r[k] == if k in news && k !in todo then news[k] else m[k]
    {
      var k :| k in todo;
      r := r[k := news[k]];
      todo := todo - {k};
    }
  }

  lemma RecordedAllSnoc(p: Policy, g: Gates, log: seq<Event>, at: Time, ip: string, ds: seq<Decision>, d: Decision,
                        muted: set<string>)
    ensures var (g', log') := RecordedAll(p, g, log, at, ip, ds, muted);
            RecordedAll(p, g, log, at, ip, ds + [d], muted) == Recorded(p, g', log', Report(at, ip, d, muted, false))
  {
    assert (ds + [d])[..|ds|] == ds;
  }

  lemma Regroup<T>(a: seq<T>, b: seq<T>, c: seq<T>, d: seq<T>, e: seq<T>)
    ensures a + b + c + d + e == a + (b + c + d + e)
  {
  }

  lemma FeedIs(u: Setup, s: State, o: Sighting, verdict: Option<bool>, muted: set<string>, tracks: Tracks,
               gates: Gates, log: seq<Event>)
    requires var seen := Observe(u.cfg, s.tracks, verdict, o.rec, o.at);
             tracks == seen.0 && (gates, log) == RecordedAll(u.policy, s.gates, s.log, o.at, o.rec.ip, seen.1, muted)
    ensures AfterFeed(u, s, o, verdict, muted)
            == Engine.State(tracks, gates, Tallied(s.buffer, o), s.lastFlush, s.table, log)
  {
  }

  /** What a yielded line does to the engine: a parsable one is fed, all else is skipped. */
  function AfterLine(u: Setup, s: State, parse: string -> Option<Record>, y: Yield, now: Time,
                     catchall: map<string, bool>, muted: set<string>): State {
    if y.Line? && parse(y.text).Some? then
      var rec := parse(y.text).value;
      var verdict := if rec.host in catchall then Some(catchall[rec.host]) else None;
      AfterFeed(u, s, Sighting(now, rec), verdict, muted)
    else s
  }

  /** The engine's state with the tail offsets, in memory and in the `meta` table. */
  datatype Whole = All(state: State, tail: map<string, Mark>, flushed: map<string, Mark>, marks: map<string, Mark>)

  function FlushedWhole(w: Whole, now: Time, force: bool): Whole {
    if !FlushDue(w.state, now, force) then w
    else
      var unsaved := Unsaved(w.tail, w.flushed);
      All(AfterFlush(w.state, now, true), w.tail, w.flushed + unsaved, w.marks + unsaved)
  }

  class DetectionEngine {
    const setup: Setup
    var ips: map<string, IpState>
    var suppress: map<(string, string), Time>
    var alertGate: map<(string, string), Time>
    var buffer: Tallies
    var lastFlush: Time
    var epWin: map<(string, string), seq<Time>>
    var epEnum: map<(string, string), map<string, Time>>
    var catchall: map<string, bool>
    var catchallPending: set<string>
    var tailStates: map<string, Mark>
    var flushedTailStates: map<string, Mark>
    // the database behind `conn`, and the calls of the two callbacks
    var table: Tallies
    var marks: map<string, Mark>
    var log: seq<Event>
    var alertCalls: seq<Event>
    var banCalls: seq<Event>

    ghost function State(): State
      reads this
    {
      Engine.State(Tracks(ips, epWin, epEnum), Gates(suppress, alertGate), buffer, lastFlush, table, log)
    }

    /** Every callback that ran belongs to a row of the events table, in order. */
    ghost predicate Valid()
      reads `log, `alertCalls, `banCalls
    {
      alertCalls == AlertsOf(log) && banCalls == BansOf(log)
    }

    constructor (setup: Setup)
      ensures Valid() && State() == BOOT && this.setup == setup && catchall == map[] && catchallPending == {}
      ensures tailStates == map[] && flushedTailStates == map[] && marks == map[]
    {
      this.setup := setup;
      ips, suppress, alertGate, buffer, lastFlush := map[], map[], map[], NO_TALLIES, 0.0;
      epWin, epEnum, catchall, catchallPending := map[], map[], map[], {};
      tailStates, flushedTailStates, marks := map[], map[], map[];
      table, log, alertCalls, banCalls := NO_TALLIES, [], [], [];
    }

    /** `_event` */
    method RecordEvent(r: Report)
      requires Valid()
      modifies `suppress, `alertGate, `log, `alertCalls, `banCalls
      ensures Valid()
      ensures (Gates(suppress, alertGate), log)
           == Recorded(setup.policy, old(Gates(suppress, alertGate)), old(log), r)
    {
      var key := (r.ip, r.what.rule);
      if !(Get(suppress, key, 0.0) > r.at) {
        suppress := suppress[key := r.at + EVENT_SUPPRESS];
        var alert := Alerting(r);
        if alert {
          alertGate := alertGate[key := r.at + ALERT_COOLDOWN];
        }
        Dispatch(EventOf(setup.policy, r, alert));
      }
    }

    /** The conditions of an alert, one after the other. */
    method Alerting(r: Report) returns (alert: bool)
      ensures alert == (WantsAlert(setup.policy, r) && Get(alertGate, (r.ip, r.what.rule), 0.0) <= r.at)
    {
      alert := !r.recordOnly
               && Rank(r.what.severity) >= Rank(setup.policy.minSeverity)
               && Get(alertGate, (r.ip, r.what.rule), 0.0) <= r.at;
      if alert && r.what.rule in setup.policy.quietRules
         && !(setup.policy.quietExceptPrivate && r.ip != "" && setup.policy.internal(r.ip)) {
        alert := false;
      }
      if alert && r.what.rule in r.muted {
        alert := false;
      }
    }

    /** The row of the events table and the calls that belong to it. */
    method Dispatch(e: Event)
      requires Valid()
      modifies `log, `alertCalls, `banCalls
      ensures Valid() && log == old(log) + [e]
    {
      assert (log + [e])[..|log|] == log;
      log := log + [e];
      if e.alerted {
        alertCalls := alertCalls + [e];
      }
      if e.banned {
        banCalls := banCalls + [e];
      }
    }

    /** The events of one record, one `_event` call after the other. */
    method RecordEvents(ds: seq<Decision>, at: Time, ip: string, muted: set<string>, ghost before: seq<Decision>,
                        ghost g: Gates, ghost l: seq<Event>)
      requires Valid()
      requires (Gates(suppress, alertGate), log) == RecordedAll(setup.policy, g, l, at, ip, before, muted)
      modifies `suppress, `alertGate, `log, `alertCalls, `banCalls
      ensures Valid()
      ensures (Gates(suppress, alertGate), log) == RecordedAll(setup.policy, g, l, at, ip, before + ds, muted)
    {
      assert before + ds[..0] == before;
      for i := 0 to |ds|
        invariant Valid()
        invariant (Gates(suppress, alertGate), log) == RecordedAll(setup.policy, g, l, at, ip, before + ds[..i], muted)
      {
        RecordEvent(Report(at, ip, ds[i], muted, false));
        RecordedAllSnoc(setup.policy, g, l, at, ip, before + ds[..i], ds[i], muted);
        assert before + ds[..i + 1] == before + ds[..i] + [ds[i]];
      }
      assert ds[..|ds|] == ds;
    }

    /** `_check_endpoints` */
    method CheckEndpoints(rec: Record, now: Time, muted: set<string>, ghost before: seq<Decision>,
                          ghost g: Gates, ghost l: seq<Event>)
      requires Valid()
      requires (Gates(suppress, alertGate), log) == RecordedAll(setup.policy, g, l, now, rec.ip, before, muted)
      modifies `epWin, `epEnum, `suppress, `alertGate, `log, `alertCalls, `banCalls
      ensures Valid()
      ensures var checked := CheckRules(setup.cfg.rules, old(Tracks(ips, epWin, epEnum)), rec, now, |setup.cfg.rules|);
              && Tracks(ips, epWin, epEnum) == checked.0
              && (Gates(suppress, alertGate), log)
                == RecordedAll(setup.policy, g, l, now, rec.ip, before + checked.1, muted)
    {
      var rules := setup.cfg.rules;
      ghost var w := Tracks(ips, epWin, epEnum);
      assert before + CheckRules(rules, w, rec, now, 0).1 == before;
      for i := 0 to |rules|
        invariant Valid()
        invariant Tracks(ips, epWin, epEnum) == CheckRules(rules, w, rec, now, i).0
        invariant (Gates(suppress, alertGate), log)
               == RecordedAll(setup.policy, g, l, now, rec.ip, before + CheckRules(rules, w, rec, now, i).1, muted)
      {
        var r := rules[i];
        ghost var done := before + CheckRules(rules, w, rec, now, i).1;
        ghost var turn := CheckRule(r, Tracks(ips, epWin, epEnum), rec, now);
        var n := Count(r, rec, now);
        RecordEvents(RuleDecision(r, rec, n), now, rec.ip, muted, done, g, l);
        assert before + CheckRules(rules, w, rec, now, i + 1).1 == done + RuleDecision(r, rec, n);
      }
    }

    /** The window of one rule: append or enter, trim or purge, and measure. */
    method Count(r: EndpointRule, rec: Record, now: Time) returns (n: nat)
      modifies `epWin, `epEnum
      ensures (Tracks(ips, epWin, epEnum), n) == CheckRule(r, old(Tracks(ips, epWin, epEnum)), rec, now)
    {
      var key := (r.name, rec.ip);
      var cutoff := now - r.window as real;
      n := 0;
      if Fires(r, rec) && r.kind != Privileged {
        if r.kind == Enumeration {
          var d := Get(epEnum, key, map[])[r.token(rec.path).value := now];
          if |d| > PURGE_ABOVE {
            ghost var full := d;
            d := Without(d, set k | k in d && d[k] < cutoff);
            assert d == Purged(full, cutoff);
          }
          epEnum := epEnum[key := d];
          n := |d|;
        } else {
          var dq := Trim(Get(epWin, key, []) + [now], cutoff);
          epWin := epWin[key := dq];
          n := |dq|;
        }
      }
    }

    /** `feed`: counters, windows, then every rule in turn. */
    method FeedRecord(rec: Record, now: Time, muted: set<string>)
      requires Valid()
      modifies `ips, `epWin, `epEnum, `buffer, `catchallPending, `suppress, `alertGate, `log, `alertCalls, `banCalls
      ensures Valid()
      ensures State() == AfterFeed(setup, old(State()), Sighting(now, rec), Verdict(rec.host), muted)
      ensures catchallPending
           == old(catchallPending) + (if QueuesHost(setup.cfg, Verdict(rec.host), rec) then {rec.host} else {})
    {
      QueueHost(rec);
      Absorb(rec, now, muted);
    }

    method Absorb(rec: Record, now: Time, muted: set<string>)
      requires Valid()
      modifies `ips, `epWin, `epEnum, `buffer, `suppress, `alertGate, `log, `alertCalls, `banCalls
      ensures Valid()
      ensures State() == AfterFeed(setup, old(State()), Sighting(now, rec), Verdict(rec.host), muted)
    {
      ghost var s := State();
      CountTraffic(rec, now);
      JudgeRecord(rec, now, muted);
      FeedIs(setup, s, Sighting(now, rec), Verdict(rec.host), muted, Tracks(ips, epWin, epEnum),
             Gates(suppress, alertGate), log);
    }

    /** A probe that an unknown host answered with success queues the host. */
    method QueueHost(rec: Record)
      modifies `catchallPending
      ensures catchallPending
           == old(catchallPending) + (if QueuesHost(setup.cfg, Verdict(rec.host), rec) then {rec.host} else {})
    {
      if QueuesHost(setup.cfg, Verdict(rec.host), rec) {
        catchallPending := catchallPending + {rec.host};
      }
    }

    /** What is known about a host: a catch-all app, a real backend, or nothing yet. */
    function Verdict(host: string): (v: Option<bool>)
      reads `catchall
      ensures v == Some(true) <==> host in catchall && catchall[host]
      ensures v == Some(false) <==> host in catchall && !catchall[host]
    {
      if host in catchall then Some(catchall[host]) else None
    }

    method JudgeRecord(rec: Record, now: Time, muted: set<string>)
      requires Valid()
      modifies `ips, `epWin, `epEnum, `suppress, `alertGate, `log, `alertCalls, `banCalls
      ensures Valid()
      ensures var seen := Observe(setup.cfg, old(Tracks(ips, epWin, epEnum)), Verdict(rec.host), rec, now);
              && Tracks(ips, epWin, epEnum) == seen.0
              && (Gates(suppress, alertGate), log)
                 == RecordedAll(setup.policy, old(Gates(suppress, alertGate)), old(log), now, rec.ip, seen.1, muted)
    {
      ghost var g, l, w := Gates(suppress, alertGate), log, Tracks(ips, epWin, epEnum);
      TouchIp(rec, now);
      JudgeProbes(rec, now, muted);
      if !setup.cfg.trusted(rec.ip) {
        JudgeUntrusted(rec, now, muted, w, ProbeDecision(setup.cfg, Verdict(rec.host), rec), g, l);
      }
    }

    /** The signature rules of `feed`. */
    method JudgeProbes(rec: Record, now: Time, muted: set<string>)
      requires Valid()
      modifies `suppress, `alertGate, `log, `alertCalls, `banCalls
      ensures Valid()
      ensures (Gates(suppress, alertGate), log)
           == RecordedAll(setup.policy, old(Gates(suppress, alertGate)), old(log), now, rec.ip,
                          ProbeDecision(setup.cfg, Verdict(rec.host), rec), muted)
    {
      var probes := ProbeDecision(setup.cfg, Verdict(rec.host), rec);
      assert [] + probes == probes;
      RecordEvents(probes, now, rec.ip, muted, [], Gates(suppress, alertGate), log);
    }

    /** The part of `feed` after the early return for trusted sources. */
    method JudgeUntrusted(rec: Record, now: Time, muted: set<string>, ghost w: Tracks, ghost before: seq<Decision>,
                          ghost g: Gates, ghost l: seq<Event>)
      requires Valid()
      requires Tracks(ips, epWin, epEnum)
              == w.(ips := w.ips[rec.ip := Touched(Get(w.ips, rec.ip, NEW_IP), rec.status, now)])
      requires (Gates(suppress, alertGate), log) == RecordedAll(setup.policy, g, l, now, rec.ip, before, muted)
      modifies `ips, `epWin, `epEnum, `suppress, `alertGate, `log, `alertCalls, `banCalls
      ensures Valid()
      ensures var endpoints := Endpoints(setup.cfg, w, rec, now);
              && Tracks(ips, epWin, epEnum) == endpoints.0
              && (Gates(suppress, alertGate), log)
                 == RecordedAll(setup.policy, g, l, now, rec.ip,
                                before + Volumes(setup.cfg, w, rec, now) + endpoints.1, muted)
    {
      JudgeRates(rec, now, muted, before, g, l);
      assert ips == w.ips[rec.ip := Updated(setup.cfg, w, rec, now)];
      CheckEndpoints(rec, now, muted, before + Volumes(setup.cfg, w, rec, now), g, l);
    }

    /** The rules of `feed` over the windows of the IP. */
    method JudgeRates(rec: Record, now: Time, muted: set<string>, ghost before: seq<Decision>, ghost g: Gates,
                      ghost l: seq<Event>)
      requires Valid() && rec.ip in ips
      requires (Gates(suppress, alertGate), log) == RecordedAll(setup.policy, g, l, now, rec.ip, before, muted)
      modifies `ips, `suppress, `alertGate, `log, `alertCalls, `banCalls
      ensures Valid()
      ensures var st := WithLogin(setup.cfg, old(ips)[rec.ip], rec, now);
              && ips == old(ips)[rec.ip := st]
              && (Gates(suppress, alertGate), log)
                 == RecordedAll(setup.policy, g, l, now, rec.ip,
                                before + VolumeDecisions(setup.cfg, rec, |st.e4xx|,
                                                         CountSince(st.req, now - RATE_WINDOW), |st.req|, |st.auth|),
                                muted)
    {
      var cfg := setup.cfg;
      ghost var st, st' := ips[rec.ip], WithLogin(cfg, ips[rec.ip], rec, now);
      ghost var scan, flood := ScanDecision(cfg, |st.e4xx|), FloodDecision(cfg, CountSince(st.req, now - RATE_WINDOW));
      ghost var bot, login := BotDecision(cfg, rec, |st.req|), LoginDecision(cfg, rec, |st'.auth|);
      JudgeVolumes(rec, now, muted, before, g, l);
      JudgeLogin(rec, now, muted, before + scan + flood + bot, g, l);
      Regroup(before, scan, flood, bot, login);
    }

    /** The rules of `feed` that look at request volumes. */
    method JudgeVolumes(rec: Record, now: Time, muted: set<string>, ghost before: seq<Decision>, ghost g: Gates,
                        ghost l: seq<Event>)
      requires Valid() && rec.ip in ips
      requires (Gates(suppress, alertGate), log) == RecordedAll(setup.policy, g, l, now, rec.ip, before, muted)
      modifies `suppress, `alertGate, `log, `alertCalls, `banCalls
      ensures Valid()
      ensures var st := ips[rec.ip];
              (Gates(suppress, alertGate), log)
              == RecordedAll(setup.policy, g, l, now, rec.ip,
                             before + ScanDecision(setup.cfg, |st.e4xx|)
                             + FloodDecision(setup.cfg, CountSince(st.req, now - RATE_WINDOW))
                             + BotDecision(setup.cfg, rec, |st.req|), muted)
    {
      var cfg, ip, st := setup.cfg, rec.ip, ips[rec.ip];
      var recent := CountRecent(st.req, now - RATE_WINDOW);
      var scan, flood := ScanDecision(cfg, |st.e4xx|), FloodDecision(cfg, recent);
      RecordEvents(scan, now, ip, muted, before, g, l);
      RecordEvents(flood, now, ip, muted, before + scan, g, l);
      RecordEvents(BotDecision(cfg, rec, |st.req|), now, ip, muted, before + scan + flood, g, l);
    }

    /** The credential-stuffing rule of `feed`. */
    method JudgeLogin(rec: Record, now: Time, muted: set<string>, ghost before: seq<Decision>, ghost g: Gates,
                      ghost l: seq<Event>)
      requires Valid() && rec.ip in ips
      requires (Gates(suppress, alertGate), log) == RecordedAll(setup.policy, g, l, now, rec.ip, before, muted)
      modifies `ips, `suppress, `alertGate, `log, `alertCalls, `banCalls
      ensures Valid()
      ensures var st := WithLogin(setup.cfg, old(ips)[rec.ip], rec, now);
              && ips == old(ips)[rec.ip := st]
              && (Gates(suppress, alertGate), log)
                 == RecordedAll(setup.policy, g, l, now, rec.ip, before + LoginDecision(setup.cfg, rec, |st.auth|),
                                muted)
    {
      if IsLogin(setup.cfg, rec) {
        var st := ips[rec.ip];
        var auth := Trim(st.auth + [now], now - STUFF_WINDOW);
        ips := ips[rec.ip := st.(auth := auth)];
      }
      RecordEvents(LoginDecision(setup.cfg, rec, |ips[rec.ip].auth|), now, rec.ip, muted, before, g, l);
    }

    method CountTraffic(rec: Record, now: Time)
      modifies `buffer
      ensures buffer == Tallied(old(buffer), Sighting(now, rec))
    {
      var minute := Minute(now);
      var key := (minute, rec.ip);
      var error, failure := One(IsError(rec.status)), One(IsFailure(rec.status));
      buffer := Tallies(Bumped(buffer.requests, minute, 1), Bumped(buffer.s4xx, minute, error),
                        Bumped(buffer.s5xx, minute, failure),
                        Bumped(buffer.ipRequests, key, 1), Bumped(buffer.ipS4xx, key, error));
    }

    method TouchIp(rec: Record, now: Time)
      modifies `ips
      ensures ips == old(ips)[rec.ip := Touched(Get(old(ips), rec.ip, NEW_IP), rec.status, now)]
    {
      var st := Get(ips, rec.ip, NEW_IP);
      var req := Trim(st.req + [now], now - BOT_WINDOW);
      var e4xx := st.e4xx;
      if IsError(rec.status) {
        e4xx := e4xx + [now];
      }
      e4xx := Trim(e4xx, now - SCAN_WINDOW);
      ips := ips[rec.ip := IpState(req, e4xx, st.auth, now)];
    }

    /** `emit`, outside agent mode. */
    method Emit(at: Time, ip: string, rule: string, severity: Severity, trustedSeverity: Severity, count: int,
                muted: set<string>)
      requires Valid()
      modifies `suppress, `alertGate, `log, `alertCalls, `banCalls
      ensures Valid()
      ensures State() == AfterRaise(setup, old(State()), Emitted(setup.cfg, at, ip, rule, severity, trustedSeverity,
                                                                 count, muted))
    {
      RecordEvent(Emitted(setup.cfg, at, ip, rule, severity, trustedSeverity, count, muted));
    }

    ghost function Whole(): Whole
      reads this
    {
      All(State(), tailStates, flushedTailStates, marks)
    }

    /** `maybe_flush`: counters and offsets in one transaction, then the pruning. */
    method MaybeFlush(now: Time, force: bool)
      modifies `ips, `suppress, `alertGate, `epWin, `epEnum, `table, `buffer, `lastFlush, `marks, `flushedTailStates
      ensures Whole() == FlushedWhole(old(Whole()), now, force)
    {
      if force || now - lastFlush >= FLUSH_SECS {
        FlushMarks();
        FlushAndPrune(now);
      }
    }

    method FlushAndPrune(now: Time)
      modifies `ips, `suppress, `alertGate, `epWin, `epEnum, `table, `buffer, `lastFlush
      ensures State() == AfterFlush(old(State()), now, true)
    {
      lastFlush := now;
      FlushCounters();
      PruneIdle(now);
    }

    method FlushMarks()
      modifies `marks, `flushedTailStates
      ensures marks == old(marks) + Unsaved(tailStates, old(flushedTailStates))
      ensures flushedTailStates == old(flushedTailStates) + Unsaved(tailStates, old(flushedTailStates))
    {
      var unsaved := Unsaved(tailStates, flushedTailStates);
      marks := Overwrite(marks, unsaved);
      flushedTailStates := Overwrite(flushedTailStates, unsaved);
    }

    /** The body of `tail_task` for a line or a heartbeat that `follow` yielded: feed the
        line if it parses, note the offset behind it, maybe flush. */
    method TailRound(source: string, parse: string -> Option<Record>, y: Yield, mark: Mark, now: Time,
                     muted: set<string>)
      requires Valid()
      modifies `ips, `epWin, `epEnum, `buffer, `catchallPending, `suppress, `alertGate, `log, `alertCalls, `banCalls,
               `table, `lastFlush, `marks, `tailStates, `flushedTailStates
      ensures Valid()
      ensures var fed := AfterLine(setup, old(State()), parse, y, now, catchall, muted);
              Whole() == FlushedWhole(All(fed, old(tailStates)[source := mark], old(flushedTailStates), old(marks)),
                                      now, false)
    {
      TakeLine(source, parse, y, mark, now, muted);
      MaybeFlush(now, false);
    }

    method TakeLine(source: string, parse: string -> Option<Record>, y: Yield, mark: Mark, now: Time,
                    muted: set<string>)
      requires Valid()
      modifies `ips, `epWin, `epEnum, `buffer, `catchallPending, `suppress, `alertGate, `log, `alertCalls, `banCalls,
        `tailStates
      ensures Valid()
      ensures Whole() == All(AfterLine(setup, old(State()), parse, y, now, catchall, muted),
                             old(tailStates)[source := mark],
                             old(flushedTailStates), old(marks))
    {
      FeedLine(parse, y, now, muted);
      tailStates := tailStates[source := mark];
    }

    method FeedLine(parse: string -> Option<Record>, y: Yield, now: Time, muted: set<string>)
      requires Valid()
      modifies `ips, `epWin, `epEnum, `buffer, `catchallPending, `suppress, `alertGate, `log, `alertCalls, `banCalls
      ensures Valid()
      ensures State() == AfterLine(setup, old(State()), parse, y, now, catchall, muted)
    {
      if y.Line? {
        var rec := parse(y.text);
        if rec.Some? {
          FeedRecord(rec.value, now, muted);
        }
      }
    }

    method FlushCounters()
      modifies `table, `buffer
      ensures table == Merged(old(table), old(buffer)) && buffer == NO_TALLIES
    {
      var requests := AddAll(table.requests, buffer.requests);
      var s4xx := AddAll(table.s4xx, buffer.s4xx);
      var s5xx := AddAll(table.s5xx, buffer.s5xx);
      var ipRequests := AddAll(table.ipRequests, buffer.ipRequests);
      var ipS4xx := AddAll(table.ipS4xx, buffer.ipS4xx);
      table := Tallies(requests, s4xx, s5xx, ipRequests, ipS4xx);
      buffer := NO_TALLIES;
    }

    /** `_prune_idle` */
    method PruneIdle(now: Time)
      modifies `ips, `suppress, `alertGate, `epWin, `epEnum
      ensures Tracks(ips, epWin, epEnum) == Pruned(old(Tracks(ips, epWin, epEnum)), now)
      ensures Gates(suppress, alertGate) == PrunedGates(old(Gates(suppress, alertGate)), now)
    {
      ForgetIps(now);
      ForgetGates(now);
      ForgetWindows(now - STALE_SECS);
    }

    method ForgetIps(now: Time)
      modifies `ips
      ensures ips == Pruned(old(Tracks(ips, epWin, epEnum)), now).ips
    {
      var cutoff := now - IDLE_PRUNE_SECS;
      if |ips| > MAX_TRACKED_IPS {
        cutoff := now - CROWDED_PRUNE_SECS;
      }
      ips := Without(ips, set ip | ip in ips && ips[ip].lastSeen < cutoff);
    }

    method ForgetGates(now: Time)
      modifies `suppress, `alertGate
      ensures Gates(suppress, alertGate) == PrunedGates(old(Gates(suppress, alertGate)), now)
    {
      suppress := Without(suppress, set k | k in suppress && suppress[k] < now);
      alertGate := Without(alertGate, set k | k in alertGate && alertGate[k] < now);
    }

    method ForgetWindows(stale: Time)
      modifies `epWin, `epEnum
      ensures epWin == map k | k in old(epWin) && !WindowStale(old(epWin)[k], stale) :: old(epWin)[k]
      ensures epEnum == map k | k in old(epEnum) && !IdsStale(old(epEnum)[k], stale) :: old(epEnum)[k]
    {
      epWin := Without(epWin, set k | k in epWin && WindowStale(epWin[k], stale));
      epEnum := Without(epEnum, set k | k in epEnum && IdsStale(epEnum[k], stale));
    }
  }
}
