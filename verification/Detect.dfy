/** The detection rules of `Engine.feed` and `_check_endpoints` (secwatch/detect.py),
    twice: over the engine's trimmed and pruned windows, and over the full history.
    Both judge with the same thresholds; only what they count differs. */
module Detect {
  import opened Collections
  import opened Windows

  const RATE_WINDOW := 60.0
  const SCAN_WINDOW := 60.0
  const BOT_WINDOW := 300.0
  const STUFF_WINDOW := 300.0
  const IDLE_PRUNE_SECS := 3600.0
  const CROWDED_PRUNE_SECS := 300.0
  const MAX_TRACKED_IPS := 20000
  const STALE_SECS := 3600.0
  const PURGE_ABOVE := 8

  datatype Severity = Info | Low | Medium | High

  function Rank(s: Severity): nat {
    match s
    case Info => 0
    case Low => 1
    case Medium => 2
    case High => 3
  }

  /** A parsed access-log line. */
  datatype Record = Record(ip: string, host: string, verb: string, path: string, status: int, ua: string)

  datatype RuleKind = Privileged | AuthAbuse | Rate | Enumeration | Unknown

  /** A configured endpoint rule. `token` stands for the compiled pattern: None when the
      path does not match, otherwise the last captured group (or the path itself). */
  datatype EndpointRule = EndpointRule(
    name: string, kind: RuleKind, severity: Severity, hosts: set<string>,
    token: string -> Option<string>, statuses: set<int>, window: int, limit: int)

  /** Site configuration and the signature tests; the patterns are not interpreted. */
  datatype Config = Config(
    trusted: string -> bool, secretProbe: string -> bool, probe: string -> bool,
    scriptedUa: string -> bool, crawlerUa: string -> bool, authPath: string -> bool,
    authHost: string, scanLimit: int, rateLimit: int, botMinReqs: int, stuffLimit: int,
    rules: seq<EndpointRule>)

  /** One call of `_event` that `feed` makes. */
  datatype Decision = Decision(rule: string, severity: Severity, count: int)

  // ---- thresholds, shared by the engine and by the naive recount

  predicate IsError(status: int) { 400 <= status < 500 }

  predicate IsLogin(cfg: Config, rec: Record) {
    rec.verb == "POST" && rec.host == cfg.authHost && cfg.authPath(rec.path)
  }

  /** Secret-file and vulnerability probes. `verdict` is what is known about the host:
      Some(true) for a catch-all app, Some(false) for a real backend. */
  function ProbeDecision(cfg: Config, verdict: Option<bool>, rec: Record): seq<Decision> {
    var trusted := cfg.trusted(rec.ip);
    var hit := 200 <= rec.status < 300;
    if cfg.secretProbe(rec.path) then
      [Decision("secret_probe", if trusted then Info else High, 1)]
    else if cfg.probe(rec.path) then
      [Decision("probe",
                if trusted then Info
                else if !hit then Medium
                else if verdict == Some(true) then Low
                else if verdict == Some(false) then High
                else Medium, 1)]
    else []
  }

  /** Whether `feed` queues the record's host for catch-all classification. */
  predicate QueuesHost(cfg: Config, verdict: Option<bool>, rec: Record) {
    !cfg.secretProbe(rec.path) && cfg.probe(rec.path) && !cfg.trusted(rec.ip)
    && 200 <= rec.status < 300 && verdict == None
  }

  function ScanDecision(cfg: Config, errors: nat): seq<Decision> {
    if errors >= cfg.scanLimit then [Decision("scan", High, errors)] else []
  }

  function FloodDecision(cfg: Config, recent: nat): seq<Decision> {
    if recent >= cfg.rateLimit then [Decision("flood", High, recent)] else []
  }

  function BotDecision(cfg: Config, rec: Record, requests: nat): seq<Decision> {
    if requests < cfg.botMinReqs then []
    else if rec.ua == "" || cfg.scriptedUa(rec.ua) then [Decision("scripted", Medium, requests)]
    else if cfg.crawlerUa(rec.ua) then [Decision("crawler", Low, requests)]
    else []
  }

  function LoginDecision(cfg: Config, rec: Record, logins: nat): seq<Decision> {
    if IsLogin(cfg, rec) && logins >= cfg.stuffLimit then [Decision("cred_stuff", High, logins)] else []
  }

  /** The volume rules of an untrusted IP, in the order `feed` tries them. */
  function VolumeDecisions(cfg: Config, rec: Record, errors: nat, recent: nat, requests: nat,
                           logins: nat): seq<Decision> {
    ScanDecision(cfg, errors) + FloodDecision(cfg, recent) + BotDecision(cfg, rec, requests)
    + LoginDecision(cfg, rec, logins)
  }

  predicate Windowed(r: EndpointRule) { r.kind == AuthAbuse || r.kind == Rate }

  /** Whether the record is a hit of the rule. */
  predicate Fires(r: EndpointRule, rec: Record) {
    ("*" in r.hosts || rec.host in r.hosts)
    && r.token(rec.path).Some?
    && match r.kind
       case Privileged => rec.status in r.statuses
       case AuthAbuse => rec.status in r.statuses
       case Rate => true
       case Enumeration => true
       case Unknown => false
  }

  function RuleDecision(r: EndpointRule, rec: Record, n: nat): seq<Decision> {
    if !Fires(r, rec) then []
    else if r.kind == Privileged then [Decision(r.name, r.severity, 1)]
    else if n >= r.limit then [Decision(r.name, r.severity, n)]
    else []
  }

  // ---- the engine's windows

  datatype IpState = IpState(req: seq<Time>, e4xx: seq<Time>, auth: seq<Time>, lastSeen: Time)

  const NEW_IP := IpState([], [], [], 0.0)

  /** `Engine.ips`, `Engine.ep_win` and `Engine.ep_enum`. */
  datatype Tracks = Tracks(
    ips: map<string, IpState>,
    win: map<(string, string), seq<Time>>,
    ids: map<(string, string), map<string, Time>>)

  const NO_TRACKS := Tracks(map[], map[], map[])

  /** The per-IP windows after the unconditional part of `feed`. */
  function Touched(st: IpState, status: int, now: Time): IpState {
    IpState(Trimmed(st.req + [now], now - BOT_WINDOW),
            Trimmed(if IsError(status) then st.e4xx + [now] else st.e4xx, now - SCAN_WINDOW),
            st.auth, now)
  }

  function WithLogin(cfg: Config, st: IpState, rec: Record, now: Time): IpState {
    if IsLogin(cfg, rec) then st.(auth := Trimmed(st.auth + [now], now - STUFF_WINDOW)) else st
  }

  /** The enumeration dictionary after the stale-ID purge, which only runs above 8 IDs. */
  function Purged(d: map<string, Time>, cutoff: Time): map<string, Time> {
    if |d| > PURGE_ABOVE then map k | k in d && d[k] >= cutoff :: d[k] else d
  }

  /** One rule of `_check_endpoints`: its window afterwards and the length it compares. */
  function CheckRule(r: EndpointRule, w: Tracks, rec: Record, now: Time): (Tracks, nat) {
    var key := (r.name, rec.ip);
    var cutoff := now - r.window as real;
    if !Fires(r, rec) || r.kind == Privileged then (w, 0)
    else if Windowed(r) then
      var dq := Trimmed(Get(w.win, key, []) + [now], cutoff);
      (w.(win := w.win[key := dq]), |dq|)
    else
      var d := Purged(Get(w.ids, key, map[])[r.token(rec.path).value := now], cutoff);
      (w.(ids := w.ids[key := d]), |d|)
  }

  /** The first `k` rules of `_check_endpoints`. */
  function CheckRules(rules: seq<EndpointRule>, w: Tracks, rec: Record, now: Time, k: nat): (Tracks, seq<Decision>)
    requires k <= |rules|
  {
    if k == 0 then (w, [])
    else
      var before := CheckRules(rules, w, rec, now, k - 1);
      var (w', n) := CheckRule(rules[k - 1], before.0, rec, now);
      (w', before.1 + RuleDecision(rules[k - 1], rec, n))
  }

  /** The windows of an untrusted record's IP when the rules are tried. */
  function Updated(cfg: Config, w: Tracks, rec: Record, now: Time): IpState {
    WithLogin(cfg, Touched(Get(w.ips, rec.ip, NEW_IP), rec.status, now), rec, now)
  }

  function Volumes(cfg: Config, w: Tracks, rec: Record, now: Time): seq<Decision> {
    var st := Updated(cfg, w, rec, now);
    VolumeDecisions(cfg, rec, |st.e4xx|, CountSince(st.req, now - RATE_WINDOW), |st.req|, |st.auth|)
  }

  function Endpoints(cfg: Config, w: Tracks, rec: Record, now: Time): (Tracks, seq<Decision>) {
    CheckRules(cfg.rules, w.(ips := w.ips[rec.ip := Updated(cfg, w, rec, now)]), rec, now, |cfg.rules|)
  }

  /** `feed`: the windows afterwards and the events it raises, in order. */
  function Observe(cfg: Config, w: Tracks, verdict: Option<bool>, rec: Record, now: Time): (Tracks, seq<Decision>) {
    var probes := ProbeDecision(cfg, verdict, rec);
    if cfg.trusted(rec.ip) then
      (w.(ips := w.ips[rec.ip := Touched(Get(w.ips, rec.ip, NEW_IP), rec.status, now)]), probes)
    else
      var (w', endpoints) := Endpoints(cfg, w, rec, now);
      (w', probes + Volumes(cfg, w, rec, now) + endpoints)
  }

  function PruneAge(w: Tracks): Time {
    if |w.ips| <= MAX_TRACKED_IPS then IDLE_PRUNE_SECS else CROWDED_PRUNE_SECS
  }

  predicate WindowStale(dq: seq<Time>, stale: Time) { dq == [] || dq[|dq| - 1] < stale }

  predicate IdsStale(d: map<string, Time>, stale: Time) { forall k :: k in d ==> d[k] < stale }

  /** The part of `_prune_idle` that forgets windows. */
  function Pruned(w: Tracks, now: Time): Tracks {
    Tracks(map ip | ip in w.ips && w.ips[ip].lastSeen >= now - PruneAge(w) :: w.ips[ip],
           map k | k in w.win && !WindowStale(w.win[k], now - STALE_SECS) :: w.win[k],
           map k | k in w.ids && !IdsStale(w.ids[k], now - STALE_SECS) :: w.ids[k])
  }

  // ---- the naive recount

  /** A record and the time it was fed. */
  datatype Sighting = Sighting(at: Time, rec: Record)

  /** What is counted: all requests, errors or logins of an IP, or its hits of a rule. */
  datatype Series =
    | Requests(ip: string)
    | Errors(ip: string)
    | Logins(ip: string)
    | Hits(rule: EndpointRule, ip: string)

  predicate Belongs(cfg: Config, s: Series, rec: Record) {
    rec.ip == s.ip
    && match s
       case Requests(_) => true
       case Errors(_) => IsError(rec.status)
       case Logins(_) => IsLogin(cfg, rec)
       case Hits(r, _) => Fires(r, rec)
  }

  /** How many records of the whole history are in the series, from `since` on. */
  function Recount(cfg: Config, h: seq<Sighting>, s: Series, since: Time): nat {
    if h == [] then 0
    else
      var last := h[|h| - 1];
      Recount(cfg, h[..|h| - 1], s, since) + (if Belongs(cfg, s, last.rec) && last.at >= since then 1 else 0)
  }

  /** The distinct IDs that an IP's hits of a rule carried, from `since` on. */
  function DistinctSince(h: seq<Sighting>, r: EndpointRule, ip: string, since: Time): set<string> {
    set i | 0 <= i < |h| && h[i].rec.ip == ip && Fires(r, h[i].rec) && h[i].at >= since
      :: r.token(h[i].rec.path).value
  }

  function NaiveRuleCount(cfg: Config, h: seq<Sighting>, r: EndpointRule, ip: string, now: Time): nat {
    var since := now - r.window as real;
    if r.kind == Enumeration then |DistinctSince(h, r, ip, since)| else Recount(cfg, h, Hits(r, ip), since)
  }

  function NaiveRules(cfg: Config, h: seq<Sighting>, rec: Record, now: Time, k: nat): seq<Decision>
    requires k <= |cfg.rules|
  {
    if k == 0 then []
    else
      NaiveRules(cfg, h, rec, now, k - 1)
      + RuleDecision(cfg.rules[k - 1], rec, NaiveRuleCount(cfg, h, cfg.rules[k - 1], rec.ip, now))
  }

  function NaiveVolumes(cfg: Config, h: seq<Sighting>, rec: Record, now: Time): seq<Decision> {
    VolumeDecisions(cfg, rec,
                    Recount(cfg, h, Errors(rec.ip), now - SCAN_WINDOW),
                    Recount(cfg, h, Requests(rec.ip), now - RATE_WINDOW),
                    Recount(cfg, h, Requests(rec.ip), now - BOT_WINDOW),
                    Recount(cfg, h, Logins(rec.ip), now - STUFF_WINDOW))
  }

  /** The events that the last record of a history raises when every window is counted
      afresh over that whole history. */
  function NaiveDecisions(cfg: Config, h: seq<Sighting>, verdict: Option<bool>): seq<Decision>
    requires h != []
  {
    var rec, now := h[|h| - 1].rec, h[|h| - 1].at;
    var probes := ProbeDecision(cfg, verdict, rec);
    if cfg.trusted(rec.ip) then probes
    else probes + NaiveVolumes(cfg, h, rec, now) + NaiveRules(cfg, h, rec, now, |cfg.rules|)
  }

  // ---- what the events mean

  /** A record raises each volume rule at most once. */
  lemma VolumesAtMostOnce(cfg: Config, w: Tracks, rec: Record, now: Time, i: nat, j: nat)
    requires i < j < |Volumes(cfg, w, rec, now)|
    ensures Volumes(cfg, w, rec, now)[i].rule != Volumes(cfg, w, rec, now)[j].rule
  {
    var st := Updated(cfg, w, rec, now);
    assert |ScanDecision(cfg, |st.e4xx|)| <= 1 && |BotDecision(cfg, rec, |st.req|)| <= 1;
    assert |FloodDecision(cfg, CountSince(st.req, now - RATE_WINDOW))| <= 1;
    assert |LoginDecision(cfg, rec, |st.auth|)| <= 1;
  }

  /** Higher counts never silence a volume rule, nor make it less severe. */
  lemma HigherCountsRaiseMore(cfg: Config, rec: Record, errors: nat, recent: nat, requests: nat, logins: nat,
                              errors': nat, recent': nat, requests': nat, logins': nat, d: Decision)
    requires errors <= errors' && recent <= recent' && requests <= requests' && logins <= logins'
    requires d in VolumeDecisions(cfg, rec, errors, recent, requests, logins)
    ensures exists d' :: d' in VolumeDecisions(cfg, rec, errors', recent', requests', logins')
              && d'.rule == d.rule && d'.severity == d.severity && d'.count >= d.count
  {
    var scan, flood := ScanDecision(cfg, errors'), FloodDecision(cfg, recent');
    var bot, login := BotDecision(cfg, rec, requests'), LoginDecision(cfg, rec, logins');
    if d in ScanDecision(cfg, errors) {
      assert scan[0] in scan;
    } else if d in FloodDecision(cfg, recent) {
      assert flood[0] in flood;
    } else if d in BotDecision(cfg, rec, requests) {
      assert bot[0] in bot;
    } else {
      assert login[0] in login;
    }
  }

  /** Whatever state the engine is in, every endpoint event comes from a rule that the record
      hits, with the rule's severity, and has reached the rule's limit unless the endpoint is
      privileged. */
  lemma {:induction false} EndpointEventsAreHits(rules: seq<EndpointRule>, w: Tracks, rec: Record, now: Time, k: nat,
                                                 d: Decision)
    requires k <= |rules| && d in CheckRules(rules, w, rec, now, k).1
    ensures exists i :: 0 <= i < k && Fires(rules[i], rec) && d.rule == rules[i].name && d.severity == rules[i].severity
              && (rules[i].kind == Privileged || d.count >= rules[i].limit)
  {
    if d in CheckRules(rules, w, rec, now, k - 1).1 {
      EndpointEventsAreHits(rules, w, rec, now, k - 1, d);
    } else {
      var before := CheckRules(rules, w, rec, now, k - 1);
      var n := CheckRule(rules[k - 1], before.0, rec, now).1;
      assert d in RuleDecision(rules[k - 1], rec, n);
    }
  }

  /** A probe is a high event exactly when an untrusted source asks for a secret file, or
      gets a success from a host that is known to be a real backend. */
  lemma ProbeIsHighIff(cfg: Config, verdict: Option<bool>, rec: Record)
    ensures (exists d :: d in ProbeDecision(cfg, verdict, rec) && d.severity == High) <==>
              !cfg.trusted(rec.ip)
              && (cfg.secretProbe(rec.path)
                  || (cfg.probe(rec.path) && 200 <= rec.status < 300 && verdict == Some(false)))
  {
    var ds := ProbeDecision(cfg, verdict, rec);
    if ds != [] {
      assert ds[0] in ds;
    }
  }

  /** Whatever a trusted source does, and however often, `feed` raises nothing above info. */
  lemma TrustedStaysInfo(cfg: Config, w: Tracks, verdict: Option<bool>, rec: Record, now: Time, d: Decision)
    requires cfg.trusted(rec.ip) && d in Observe(cfg, w, verdict, rec, now).1
    ensures d.severity == Info
  {
  }

  /** Exactly what pruning forgets: IPs that were idle for an hour, or for five minutes when
      more than 20000 are tracked; deques and dictionaries with nothing of the last hour. */
  lemma PrunedIs(w: Tracks, now: Time)
    ensures forall ip :: ip in Pruned(w, now).ips <==>
              ip in w.ips && w.ips[ip].lastSeen >= now - (if |w.ips| > 20000 then 300.0 else 3600.0)
    ensures forall k :: k in Pruned(w, now).win <==>
              k in w.win && w.win[k] != [] && w.win[k][|w.win[k]| - 1] >= now - 3600.0
    ensures forall k :: k in Pruned(w, now).ids <==>
              k in w.ids && exists id :: id in w.ids[k] && w.ids[k][id] >= now - 3600.0
  {
  }
}
