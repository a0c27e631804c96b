/** Which events a record raises (secwatch/detect.py), in terms of the records fed so far and of
    nothing else: every rule spelled out, with its limit and the count it has to reach. */
module Raising {
  import opened Collections
  import opened Windows
  import opened Detect
  import opened DetectExact
  import opened Alerts
  import opened Engine

  // ---- what is counted, as a number of records

  /** The record is for one of the rule's hosts, its path matches, and its status is one that
      the kind of rule looks at. */
  predicate IsHit(r: EndpointRule, rec: Record) {
    && ("*" in r.hosts || rec.host in r.hosts)
    && r.token(rec.path) != None
    && (r.kind == Rate || r.kind == Enumeration
        || ((r.kind == Privileged || r.kind == AuthAbuse) && rec.status in r.statuses))
  }

  lemma HitIsFires(r: EndpointRule, rec: Record)
    ensures Fires(r, rec) <==> IsHit(r, rec)
  {
  }

  predicate InSeries(cfg: Config, s: Series, rec: Record) {
    match s
    case Requests(ip) => rec.ip == ip
    case Errors(ip) => rec.ip == ip && 400 <= rec.status < 500
    case Logins(ip) => rec.ip == ip && rec.verb == "POST" && rec.host == cfg.authHost && cfg.authPath(rec.path)
    case Hits(r, ip) => rec.ip == ip && IsHit(r, rec)
  }

  function Looked(cfg: Config, s: Series, since: Time): Sighting -> bool {
    (o: Sighting) => o.at >= since && InSeries(cfg, s, o.rec)
  }

  /** How many records of the series there were, from `since` on. */
  function HowMany(cfg: Config, h: seq<Sighting>, s: Series, since: Time): nat {
    CountWhere(h, Looked(cfg, s, since))
  }

  lemma BelongsIs(cfg: Config, s: Series, rec: Record)
    ensures Belongs(cfg, s, rec) <==> InSeries(cfg, s, rec)
  {
    match s
    case Hits(r, _) => HitIsFires(r, rec);
    case _ =>
  }

  lemma {:induction false} RecountIs(cfg: Config, h: seq<Sighting>, s: Series, since: Time)
    ensures Recount(cfg, h, s, since) == HowMany(cfg, h, s, since)
    decreases |h|
  {
    if h != [] {
      var front, last := h[..|h| - 1], h[|h| - 1];
      RecountIs(cfg, front, s, since);
      BelongsIs(cfg, s, last.rec);
      CountWhereSnoc(front, last, Looked(cfg, s, since));
      assert h == front + [last];
    }
  }

  /** The IDs in the paths of an IP's hits, from `since` on. */
  function DistinctIds(h: seq<Sighting>, r: EndpointRule, ip: string, since: Time): set<string> {
    set i | 0 <= i < |h| && h[i].at >= since && h[i].rec.ip == ip && IsHit(r, h[i].rec)
      :: r.token(h[i].rec.path).value
  }

  lemma DistinctIdsAre(h: seq<Sighting>, r: EndpointRule, ip: string, since: Time)
    ensures DistinctSince(h, r, ip, since) == DistinctIds(h, r, ip, since)
  {
    forall id ensures id in DistinctSince(h, r, ip, since) <==> id in DistinctIds(h, r, ip, since) {
      if id in DistinctSince(h, r, ip, since) {
        var i :| 0 <= i < |h| && h[i].rec.ip == ip && Fires(r, h[i].rec) && h[i].at >= since
                 && r.token(h[i].rec.path).value == id;
        HitIsFires(r, h[i].rec);
      }
      if id in DistinctIds(h, r, ip, since) {
        var i :| 0 <= i < |h| && h[i].rec.ip == ip && IsHit(r, h[i].rec) && h[i].at >= since
                 && r.token(h[i].rec.path).value == id;
        HitIsFires(r, h[i].rec);
      }
    }
  }

  // ---- probes

  /** A secret file, or a path that scanners look for; what is known about the host decides how
      bad a success is. */
  predicate ProbeRaises(cfg: Config, verdict: Option<bool>, rec: Record, d: Decision) {
    d.count == 1
    && if cfg.secretProbe(rec.path) then
         d.rule == "secret_probe" && d.severity == (if cfg.trusted(rec.ip) then Info else High)
       else
         && cfg.probe(rec.path) && d.rule == "probe"
         && d.severity
            == (if cfg.trusted(rec.ip) then Info
                else if rec.status < 200 || rec.status >= 300 then Medium
                else match verdict
                     case Some(true) => Low
                     case Some(false) => High
                     case None => Medium)
  }

  lemma ProbesAre(cfg: Config, verdict: Option<bool>, rec: Record, d: Decision)
    ensures d in ProbeDecision(cfg, verdict, rec) <==> ProbeRaises(cfg, verdict, rec, d)
  {
  }

  /** A host is queued for classification exactly when an untrusted probe of it succeeded and
      nothing is known about it. */
  lemma QueuedIff(cfg: Config, verdict: Option<bool>, rec: Record)
    ensures QueuesHost(cfg, verdict, rec) <==>
              ProbeRaises(cfg, verdict, rec, Decision("probe", Medium, 1)) && verdict == None
              && !(rec.status < 200 || rec.status >= 300)
  {
  }

  // ---- volume rules

  /** The five volume rules of an untrusted source, over the history that ends with its record. */
  predicate VolumeRaises(cfg: Config, h: seq<Sighting>, rec: Record, now: Time, d: Decision) {
    var errors, recent := HowMany(cfg, h, Errors(rec.ip), now - 60.0), HowMany(cfg, h, Requests(rec.ip), now - 60.0);
    var requests := HowMany(cfg, h, Requests(rec.ip), now - 300.0);
    var logins := HowMany(cfg, h, Logins(rec.ip), now - 300.0);
    || (d == Decision("scan", High, errors) && errors >= cfg.scanLimit)
    || (d == Decision("flood", High, recent) && recent >= cfg.rateLimit)
    || (d == Decision("scripted", Medium, requests) && requests >= cfg.botMinReqs
        && (rec.ua == "" || cfg.scriptedUa(rec.ua)))
    || (d == Decision("crawler", Low, requests) && requests >= cfg.botMinReqs
        && rec.ua != "" && !cfg.scriptedUa(rec.ua) && cfg.crawlerUa(rec.ua))
    || (d == Decision("cred_stuff", High, logins) && logins >= cfg.stuffLimit
        && InSeries(cfg, Logins(rec.ip), rec))
  }

  lemma VolumesAre(cfg: Config, h: seq<Sighting>, rec: Record, now: Time, d: Decision)
    ensures d in NaiveVolumes(cfg, h, rec, now) <==> VolumeRaises(cfg, h, rec, now, d)
  {
    RecountIs(cfg, h, Errors(rec.ip), now - 60.0);
    RecountIs(cfg, h, Requests(rec.ip), now - 60.0);
    RecountIs(cfg, h, Requests(rec.ip), now - 300.0);
    RecountIs(cfg, h, Logins(rec.ip), now - 300.0);
    VolumesOf(cfg, rec, Recount(cfg, h, Errors(rec.ip), now - 60.0), Recount(cfg, h, Requests(rec.ip), now - 60.0),
              Recount(cfg, h, Requests(rec.ip), now - 300.0), Recount(cfg, h, Logins(rec.ip), now - 300.0), d);
  }

  lemma VolumesOf(cfg: Config, rec: Record, errors: nat, recent: nat, requests: nat, logins: nat, d: Decision)
    ensures d in VolumeDecisions(cfg, rec, errors, recent, requests, logins) <==>
              || (d == Decision("scan", High, errors) && errors >= cfg.scanLimit)
              || (d == Decision("flood", High, recent) && recent >= cfg.rateLimit)
              || (d == Decision("scripted", Medium, requests) && requests >= cfg.botMinReqs
                  && (rec.ua == "" || cfg.scriptedUa(rec.ua)))
              || (d == Decision("crawler", Low, requests) && requests >= cfg.botMinReqs
                  && rec.ua != "" && !cfg.scriptedUa(rec.ua) && cfg.crawlerUa(rec.ua))
              || (d == Decision("cred_stuff", High, logins) && logins >= cfg.stuffLimit
                  && rec.verb == "POST" && rec.host == cfg.authHost && cfg.authPath(rec.path))
  {
  }

  // ---- endpoint rules

  /** The rule is hit; a hit of a privileged endpoint is enough, any other has to bring the
      number to the limit. */
  predicate RuleRaises(r: EndpointRule, rec: Record, n: int, d: Decision) {
    && IsHit(r, rec) && d.rule == r.name && d.severity == r.severity
    && if r.kind == Privileged then d.count == 1 else d.count == n && n >= r.limit
  }

  lemma RuleDecisionIs(r: EndpointRule, rec: Record, n: nat, d: Decision)
    ensures d in RuleDecision(r, rec, n) <==> RuleRaises(r, rec, n, d)
  {
    HitIsFires(r, rec);
  }

  /** The event of rule `i`, by the number that it compares when its turn comes. */
  ghost predicate RaisedBy(rules: seq<EndpointRule>, w: Tracks, rec: Record, now: Time, i: nat, d: Decision)
    requires i < |rules|
  {
    match rules[i]
    case EndpointRule(_, _, _, _, _, _, _, _) =>
      RuleRaises(rules[i], rec, CheckRule(rules[i], CheckRules(rules, w, rec, now, i).0, rec, now).1, d)
  }

  ghost predicate SomeRuleRaises(rules: seq<EndpointRule>, w: Tracks, rec: Record, now: Time, k: nat, d: Decision)
    requires k <= |rules|
  {
    exists i: nat :: i < k && RaisedBy(rules, w, rec, now, i, d)
  }

  /** Whatever state the engine is in, its endpoint events are those of the rules that the
      record hits and whose number reaches the limit. */
  lemma {:induction false} EndpointsAre(rules: seq<EndpointRule>, w: Tracks, rec: Record, now: Time, k: nat,
                                        d: Decision)
    requires k <= |rules|
    ensures d in CheckRules(rules, w, rec, now, k).1 <==> SomeRuleRaises(rules, w, rec, now, k, d)
    decreases k
  {
    if k > 0 {
      EndpointsAre(rules, w, rec, now, k - 1, d);
      LastRuleRaises(rules, w, rec, now, k, d);
      MoreRules(rules, w, rec, now, k, d);
    }
  }

  lemma LastRuleRaises(rules: seq<EndpointRule>, w: Tracks, rec: Record, now: Time, k: nat, d: Decision)
    requires 0 < k <= |rules|
    ensures d in CheckRules(rules, w, rec, now, k).1 <==>
              d in CheckRules(rules, w, rec, now, k - 1).1 || RaisedBy(rules, w, rec, now, k - 1, d)
  {
    RuleDecisionIs(rules[k - 1], rec,
                   CheckRule(rules[k - 1], CheckRules(rules, w, rec, now, k - 1).0, rec, now).1, d);
  }

  lemma MoreRules(rules: seq<EndpointRule>, w: Tracks, rec: Record, now: Time, k: nat, d: Decision)
    requires 0 < k <= |rules|
    ensures SomeRuleRaises(rules, w, rec, now, k, d) <==>
              SomeRuleRaises(rules, w, rec, now, k - 1, d) || RaisedBy(rules, w, rec, now, k - 1, d)
  {
  }

  /** How often the IP hit the rule in its window, or how many distinct IDs its hits carried. */
  function HitCount(cfg: Config, h: seq<Sighting>, r: EndpointRule, ip: string, now: Time): nat {
    var since := now - r.window as real;
    if r.kind == Enumeration then |DistinctIds(h, r, ip, since)| else HowMany(cfg, h, Hits(r, ip), since)
  }

  lemma HitCountIs(cfg: Config, h: seq<Sighting>, r: EndpointRule, ip: string, now: Time)
    ensures NaiveRuleCount(cfg, h, r, ip, now) == HitCount(cfg, h, r, ip, now)
  {
    DistinctIdsAre(h, r, ip, now - r.window as real);
    RecountIs(cfg, h, Hits(r, ip), now - r.window as real);
  }

  /** Whatever other rules there are, a sound rule raises its event exactly when the record
      hits it and the history brings it to its limit. */
  lemma SoundRuleRaises(cfg: Config, w: Tracks, h: seq<Sighting>, clock: Time, o: Sighting, i: nat)
    requires Agrees(cfg, w, h, clock) && clock <= o.at && !cfg.trusted(o.rec.ip)
    requires i < |cfg.rules| && Sound(cfg, i) && Exact(cfg.rules[i]) && IsHit(cfg.rules[i], o.rec)
    requires Tracked(cfg.rules[i]) && HitCount(cfg, h + [o], cfg.rules[i], o.rec.ip, o.at) >= cfg.rules[i].limit
    ensures Decision(cfg.rules[i].name, cfg.rules[i].severity,
                     HitCount(cfg, h + [o], cfg.rules[i], o.rec.ip, o.at)) in Endpoints(cfg, w, o.rec, o.at).1
  {
    var r, n := cfg.rules[i], HitCount(cfg, h + [o], cfg.rules[i], o.rec.ip, o.at);
    var entered := w.(ips := w.ips[o.rec.ip := Updated(cfg, w, o.rec, o.at)]);
    RuleSame(cfg, w, entered, h, r, o.rec.ip, clock);
    HitIsFires(r, o.rec);
    HitCountIs(cfg, h + [o], r, o.rec.ip, o.at);
    ComparedCounts(cfg, entered, h, clock, o, i);
    assert RaisedBy(cfg.rules, entered, o.rec, o.at, i, Decision(r.name, r.severity, n));
    EndpointsAre(cfg.rules, entered, o.rec, o.at, |cfg.rules|, Decision(r.name, r.severity, n));
  }

  // ---- all events of a record

  /** The event of rule `i`, by its number over the history. */
  ghost predicate CalledBy(cfg: Config, h: seq<Sighting>, rec: Record, now: Time, i: nat, d: Decision)
    requires i < |cfg.rules|
  {
    match cfg.rules[i]
    case EndpointRule(_, _, _, _, _, _, _, _) =>
      RuleRaises(cfg.rules[i], rec, HitCount(cfg, h, cfg.rules[i], rec.ip, now), d)
  }

  ghost predicate SomeRuleCalls(cfg: Config, h: seq<Sighting>, rec: Record, now: Time, k: nat, d: Decision)
    requires k <= |cfg.rules|
  {
    exists i: nat :: i < k && CalledBy(cfg, h, rec, now, i, d)
  }

  /** The history that ends with a record calls for the event: it is a probe, or its source is
      not trusted and the volumes or a rule call for it. */
  ghost predicate Raises(cfg: Config, h: seq<Sighting>, verdict: Option<bool>, d: Decision)
    requires h != []
  {
    var rec, now := h[|h| - 1].rec, h[|h| - 1].at;
    || ProbeRaises(cfg, verdict, rec, d)
    || (!cfg.trusted(rec.ip)
        && (VolumeRaises(cfg, h, rec, now, d)
            || SomeRuleCalls(cfg, h, rec, now, |cfg.rules|, d)))
  }

  lemma {:induction false} NaiveRulesAre(cfg: Config, h: seq<Sighting>, rec: Record, now: Time, k: nat, d: Decision)
    requires k <= |cfg.rules|
    ensures d in NaiveRules(cfg, h, rec, now, k) <==> SomeRuleCalls(cfg, h, rec, now, k, d)
    decreases k
  {
    if k > 0 {
      NaiveRulesAre(cfg, h, rec, now, k - 1, d);
      LastRuleCalls(cfg, h, rec, now, k, d);
      MoreRulesCall(cfg, h, rec, now, k, d);
    }
  }

  lemma LastRuleCalls(cfg: Config, h: seq<Sighting>, rec: Record, now: Time, k: nat, d: Decision)
    requires 0 < k <= |cfg.rules|
    ensures d in NaiveRules(cfg, h, rec, now, k) <==>
              d in NaiveRules(cfg, h, rec, now, k - 1) || CalledBy(cfg, h, rec, now, k - 1, d)
  {
    var r := cfg.rules[k - 1];
    HitCountIs(cfg, h, r, rec.ip, now);
    RuleDecisionIs(r, rec, NaiveRuleCount(cfg, h, r, rec.ip, now), d);
  }

  lemma MoreRulesCall(cfg: Config, h: seq<Sighting>, rec: Record, now: Time, k: nat, d: Decision)
    requires 0 < k <= |cfg.rules|
    ensures SomeRuleCalls(cfg, h, rec, now, k, d) <==>
              SomeRuleCalls(cfg, h, rec, now, k - 1, d) || CalledBy(cfg, h, rec, now, k - 1, d)
  {
  }

  /** On windows that agree with the history, a record raises exactly the events that the
      history calls for. */
  lemma FeedRaisesIff(cfg: Config, w: Tracks, h: seq<Sighting>, clock: Time, o: Sighting, verdict: Option<bool>,
                      d: Decision)
    requires WellFormed(cfg) && AllExact(cfg) && Agrees(cfg, w, h, clock) && clock <= o.at
    ensures d in Observe(cfg, w, verdict, o.rec, o.at).1 <==> Raises(cfg, h + [o], verdict, d)
  {
    FeedDecides(cfg, w, h, clock, o, verdict);
    ProbesAre(cfg, verdict, o.rec, d);
    VolumesAre(cfg, h + [o], o.rec, o.at, d);
    NaiveRulesAre(cfg, h + [o], o.rec, o.at, |cfg.rules|, d);
  }

  // ---- and they are written down

  /** The table has an event of the key from the last 600 s. */
  ghost predicate OnRecord(log: seq<Event>, ip: string, rule: string, now: Time) {
    exists j :: 0 <= j < |log| && log[j].ip == ip && log[j].rule == rule && now - 600.0 < log[j].ts
  }

  lemma ClearIff(log: seq<Event>, ip: string, rule: string, now: Time)
    ensures Clear(log, ip, rule, false, 600.0, now) <==> !OnRecord(log, ip, rule, now)
  {
    if !Clear(log, ip, rule, false, 600.0, now) {
      var j :| 0 <= j < |log| && Concerns(log[j], ip, rule, false) && log[j].ts + 600.0 > now;
    }
  }

  lemma OneOnRecord(p: Policy, g: Gates, log: seq<Event>, clock: Time, r: Report)
    requires GatesAgree(g, log, clock) && clock <= r.at
    ensures log <= Recorded(p, g, log, r).1 && OnRecord(Recorded(p, g, log, r).1, r.ip, r.what.rule, r.at)
  {
    var log' := Recorded(p, g, log, r).1;
    AlertsIff(p, g, log, clock, r);
    ClearIff(log, r.ip, r.what.rule, r.at);
    if log' != log {
      assert log'[|log|].ts == r.at;
    }
  }

  lemma OnRecordStays(log: seq<Event>, log': seq<Event>, ip: string, rule: string, now: Time)
    requires log <= log' && OnRecord(log, ip, rule, now)
    ensures OnRecord(log', ip, rule, now)
  {
    var j :| 0 <= j < |log| && log[j].ip == ip && log[j].rule == rule && now - 600.0 < log[j].ts;
    assert log'[j] == log[j];
  }

  lemma {:induction false} AllOnRecord(p: Policy, g: Gates, log: seq<Event>, clock: Time, at: Time, ip: string,
                                       ds: seq<Decision>, muted: set<string>, d: Decision)
    requires GatesAgree(g, log, clock) && clock <= at && d in ds
    ensures OnRecord(RecordedAll(p, g, log, at, ip, ds, muted).1, ip, d.rule, at)
    decreases |ds|
  {
    var n := |ds| - 1;
    var (g', log') := RecordedAll(p, g, log, at, ip, ds[..n], muted);
    RecordedAllAgree(p, g, log, clock, at, ip, ds[..n], muted);
    OneOnRecord(p, g', log', at, Report(at, ip, ds[n], muted, false));
    if d != ds[n] {
      assert d in ds[..n];
      AllOnRecord(p, g, log, clock, at, ip, ds[..n], muted, d);
      OnRecordStays(log', RecordedAll(p, g, log, at, ip, ds, muted).1, ip, d.rule, at);
    }
  }

  /** On every ordered run, an event that the history calls for is in the events table, unless
      it is the repetition of one of the last ten minutes. */
  lemma RunRecordsRaised(u: Setup, ops: seq<Op>, o: Sighting, verdict: Option<bool>, muted: set<string>, d: Decision)
    requires WellFormed(u.cfg) && AllExact(u.cfg) && Ordered(ops) && Clock(ops) <= o.at
    requires Raises(u.cfg, Fed(ops) + [o], verdict, d)
    ensures OnRecord(Run(u, ops + [Feed(o, verdict, muted)]).log, o.rec.ip, d.rule, o.at)
  {
    var s := Run(u, ops);
    RunLast(u, ops, Feed(o, verdict, muted));
    RunIsSpaced(u, ops);
    RunKeepsTracks(u, ops);
    FeedRaisesIff(u.cfg, s.tracks, Fed(ops), Clock(ops), o, verdict, d);
    AllOnRecord(u.policy, s.gates, s.log, Clock(ops), o.at, o.rec.ip,
                Observe(u.cfg, s.tracks, verdict, o.rec, o.at).1, muted, d);
  }

  /** The same for one sound rule, whatever the other rules are. */
  lemma RunRecordsHits(u: Setup, ops: seq<Op>, o: Sighting, verdict: Option<bool>, muted: set<string>, i: nat)
    requires Ordered(ops) && Clock(ops) <= o.at && !u.cfg.trusted(o.rec.ip)
    requires i < |u.cfg.rules| && Tracked(u.cfg.rules[i]) && Sound(u.cfg, i) && Exact(u.cfg.rules[i])
    requires IsHit(u.cfg.rules[i], o.rec)
    requires HitCount(u.cfg, Fed(ops) + [o], u.cfg.rules[i], o.rec.ip, o.at) >= u.cfg.rules[i].limit
    ensures OnRecord(Run(u, ops + [Feed(o, verdict, muted)]).log, o.rec.ip, u.cfg.rules[i].name, o.at)
  {
    var s, r := Run(u, ops), u.cfg.rules[i];
    var d := Decision(r.name, r.severity, HitCount(u.cfg, Fed(ops) + [o], r, o.rec.ip, o.at));
    RunLast(u, ops, Feed(o, verdict, muted));
    RunIsSpaced(u, ops);
    RunKeepsTracks(u, ops);
    SoundRuleRaises(u.cfg, s.tracks, Fed(ops), Clock(ops), o, i);
    AllOnRecord(u.policy, s.gates, s.log, Clock(ops), o.at, o.rec.ip,
                Observe(u.cfg, s.tracks, verdict, o.rec, o.at).1, muted, d);
  }
}
