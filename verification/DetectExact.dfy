/** The engine's windows agree with the naive recount at every point of every run:
    lazy trimming, the conditional ID purge and both pruning modes are invisible. */
module DetectExact {
  import opened Collections
  import opened Windows
  import opened Detect

  /** A rule whose events the naive recount reproduces, count included. */
  predicate Exact(r: EndpointRule) {
    r.kind == Enumeration ==> r.limit > PURGE_ABOVE
  }

  // ---- rules with one name

  predicate Tracked(r: EndpointRule) { Windowed(r) || r.kind == Enumeration }

  /** Rules with one name share a deque, or a dictionary, if both use one. */
  predicate Shares(a: EndpointRule, b: EndpointRule) {
    a.name == b.name && ((Windowed(a) && Windowed(b)) || (a.kind == Enumeration && b.kind == Enumeration))
  }

  /** The ID that a hit of the rule carries. */
  function Token(r: EndpointRule, rec: Record): Option<string> {
    if Fires(r, rec) then r.token(rec.path) else None
  }

  ghost predicate CanFire(r: EndpointRule) { exists rec :: Fires(r, rec) }

  ghost predicate Owns(r: EndpointRule, id: string) { exists rec :: Token(r, rec) == Some(id) }

  /** More IDs of the rule than are stored without a purge. */
  ghost predicate AreMany(r: EndpointRule, ids: set<string>) {
    |ids| > PURGE_ABOVE && forall id :: id in ids ==> Owns(r, id)
  }

  ghost predicate ManyIds(r: EndpointRule) { exists ids :: AreMany(r, ids) }

  /** The other rule can enter an ID that is not the rule's own. */
  ghost predicate Foreign(other: EndpointRule, r: EndpointRule) {
    exists rec :: Fires(other, rec) && Token(r, rec) != Token(other, rec)
  }

  /** What the other rule does to the store it shares with the rule can be seen there: a
      second stamp, an ID of its own, or a purge that comes too early. */
  ghost predicate Disturbs(other: EndpointRule, r: EndpointRule) {
    && Shares(other, r) && CanFire(other)
    && (Windowed(r) || Foreign(other, r) || (other.window < r.window && ManyIds(r)))
  }

  ghost predicate Undisturbed(cfg: Config, i: int)
    requires 0 <= i < |cfg.rules|
  {
    forall j :: 0 <= j < |cfg.rules| && j != i ==> !Disturbs(cfg.rules[j], cfg.rules[i])
  }

  /** Nothing disturbs the rule, and its window is a duration of at most an hour. */
  ghost predicate Sound(cfg: Config, i: int)
    requires 0 <= i < |cfg.rules|
  {
    Undisturbed(cfg, i) && 0 <= cfg.rules[i].window <= 3600
  }

  /** Every rule that uses a window and can fire is sound. */
  ghost predicate WellFormed(cfg: Config) {
    forall i :: 0 <= i < |cfg.rules| && Tracked(cfg.rules[i]) && CanFire(cfg.rules[i]) ==> Sound(cfg, i)
  }

  /** It is enough that rules which use the same kind of store have names of their own. */
  lemma NamesAreEnough(cfg: Config)
    requires forall i :: 0 <= i < |cfg.rules| && Tracked(cfg.rules[i]) ==> 0 <= cfg.rules[i].window <= 3600
    requires forall i, j :: 0 <= i < j < |cfg.rules| && Shares(cfg.rules[i], cfg.rules[j]) ==>
            !CanFire(cfg.rules[i]) || !CanFire(cfg.rules[j])
    ensures WellFormed(cfg)
  {
  }

  /** Every rule that can fire is exact. */
  ghost predicate AllExact(cfg: Config) {
    forall i :: 0 <= i < |cfg.rules| && CanFire(cfg.rules[i]) ==> Exact(cfg.rules[i])
  }

  // ---- the simulation relation

  ghost predicate EndsBy(s: seq<Time>, t: Time) { s != [] ==> s[|s| - 1] <= t }

  /** From `horizon` on, the deque counts what the history counts. */
  ghost predicate SeriesAgrees(cfg: Config, dq: seq<Time>, h: seq<Sighting>, s: Series, horizon: Time, clock: Time) {
    && Sorted(dq) && EndsBy(dq, clock)
    && forall c {:trigger Recount(cfg, h, s, c)} :: c >= horizon ==> CountSince(dq, c) == Recount(cfg, h, s, c)
  }

  ghost predicate IdsAgree(d: map<string, Time>, h: seq<Sighting>, r: EndpointRule, ip: string, horizon: Time,
                           clock: Time) {
    && (forall k :: k in d ==> d[k] <= clock)
    && forall k, c {:trigger k in DistinctSince(h, r, ip, c)} ::
         c >= horizon ==> (k in DistinctSince(h, r, ip, c) <==> k in d && d[k] >= c)
  }

  ghost predicate IpAgrees(cfg: Config, st: IpState, h: seq<Sighting>, ip: string, clock: Time) {
    && SeriesAgrees(cfg, st.req, h, Requests(ip), clock - BOT_WINDOW, clock)
    && SeriesAgrees(cfg, st.e4xx, h, Errors(ip), clock - SCAN_WINDOW, clock)
    && (!cfg.trusted(ip) ==> SeriesAgrees(cfg, st.auth, h, Logins(ip), clock - STUFF_WINDOW, clock))
    && Sorted(st.auth) && EndsBy(st.req, st.lastSeen) && EndsBy(st.e4xx, st.lastSeen) && EndsBy(st.auth, st.lastSeen)
    && EndsBy(st.auth, clock)
  }

  ghost predicate OwnIds(d: map<string, Time>, r: EndpointRule) {
    forall k :: k in d ==> Owns(r, k)
  }

  ghost predicate DequeAgrees(cfg: Config, w: Tracks, h: seq<Sighting>, r: EndpointRule, ip: string, clock: Time) {
    SeriesAgrees(cfg, Get(w.win, (r.name, ip), []), h, Hits(r, ip), clock - r.window as real, clock)
  }

  ghost predicate DictionaryAgrees(w: Tracks, h: seq<Sighting>, r: EndpointRule, ip: string, clock: Time) {
    && IdsAgree(Get(w.ids, (r.name, ip), map[]), h, r, ip, clock - r.window as real, clock)
    && OwnIds(Get(w.ids, (r.name, ip), map[]), r)
  }

  ghost predicate RuleAgrees(cfg: Config, w: Tracks, h: seq<Sighting>, r: EndpointRule, ip: string, clock: Time) {
    match r.kind
    case AuthAbuse => DequeAgrees(cfg, w, h, r, ip, clock)
    case Rate => DequeAgrees(cfg, w, h, r, ip, clock)
    case Enumeration => DictionaryAgrees(w, h, r, ip, clock)
    case _ => true
  }

  ghost predicate Agrees(cfg: Config, w: Tracks, h: seq<Sighting>, clock: Time) {
    && (forall ip :: IpAgrees(cfg, Get(w.ips, ip, NEW_IP), h, ip, clock))
    && (forall ip, i :: 0 <= i < |cfg.rules| && !cfg.trusted(ip) && Sound(cfg, i)
          ==> RuleAgrees(cfg, w, h, cfg.rules[i], ip, clock))
  }

  // ---- one deque

  lemma RecountAfter(cfg: Config, h: seq<Sighting>, o: Sighting, s: Series, c: Time)
    ensures Recount(cfg, h + [o], s, c)
         == Recount(cfg, h, s, c) + (if Belongs(cfg, s, o.rec) && o.at >= c then 1 else 0)
  {
    assert (h + [o])[..|h|] == h;
  }

  /** Appending the stamp of a record of the series keeps the agreement; so does a
      record of another series, and so does the mere passing of time. */
  lemma SeriesGrows(cfg: Config, dq: seq<Time>, h: seq<Sighting>, s: Series, horizon: Time, clock: Time, o: Sighting)
    requires SeriesAgrees(cfg, dq, h, s, horizon, clock) && clock <= o.at
    ensures SeriesAgrees(cfg, if Belongs(cfg, s, o.rec) then dq + [o.at] else dq, h + [o], s, horizon, o.at)
  {
    var member := Belongs(cfg, s, o.rec);
    var dq' := if member then dq + [o.at] else dq;
    forall c | c >= horizon
      ensures CountSince(dq', c) == Recount(cfg, h + [o], s, c)
    {
      RecountAfter(cfg, h, o, s, c);
      assert CountSince(dq, c) == Recount(cfg, h, s, c);
      if member {
        CountSinceAppend(dq, o.at, c);
      }
    }
  }

  /** A trim at the edge of the window keeps the agreement, and the length of the
      trimmed deque is the naive count. */
  lemma SeriesTrimmed(cfg: Config, dq: seq<Time>, h: seq<Sighting>, s: Series, horizon: Time, clock: Time, cutoff: Time)
    requires SeriesAgrees(cfg, dq, h, s, horizon, clock) && horizon <= cutoff
    ensures SeriesAgrees(cfg, Trimmed(dq, cutoff), h, s, cutoff, clock)
    ensures |Trimmed(dq, cutoff)| == Recount(cfg, h, s, cutoff)
  {
    TrimmedIsWindow(dq, cutoff);
    TrimmedLength(dq, cutoff);
    forall c | c >= cutoff
      ensures CountSince(Trimmed(dq, cutoff), c) == Recount(cfg, h, s, c)
    {
      TrimmedKeepsCounts(dq, cutoff, c);
    }
  }

  /** A deque that ended before the window began may be dropped altogether. */
  lemma SeriesForgotten(cfg: Config, dq: seq<Time>, h: seq<Sighting>, s: Series, horizon: Time, clock: Time,
                        horizon': Time, clock': Time)
    requires SeriesAgrees(cfg, dq, h, s, horizon, clock) && horizon <= horizon'
    requires dq == [] || dq[|dq| - 1] < horizon'
    ensures SeriesAgrees(cfg, [], h, s, horizon', clock')
  {
    forall c | c >= horizon'
      ensures CountSince([], c) == Recount(cfg, h, s, c)
    {
      CountNoneSince(dq, c);
    }
  }

  lemma SeriesLater(cfg: Config, dq: seq<Time>, h: seq<Sighting>, s: Series, horizon: Time, clock: Time,
                    horizon': Time, clock': Time)
    requires SeriesAgrees(cfg, dq, h, s, horizon, clock) && horizon <= horizon' && clock <= clock'
    ensures SeriesAgrees(cfg, dq, h, s, horizon', clock')
  {
  }

  // ---- one ID dictionary

  lemma IdsGrow(d: map<string, Time>, h: seq<Sighting>, r: EndpointRule, ip: string, horizon: Time, clock: Time,
                o: Sighting)
    requires IdsAgree(d, h, r, ip, horizon, clock) && clock <= o.at
    ensures IdsAgree(if o.rec.ip == ip && Fires(r, o.rec) then d[r.token(o.rec.path).value := o.at] else d,
                     h + [o], r, ip, horizon, o.at)
  {
    var d' := if o.rec.ip == ip && Fires(r, o.rec) then d[r.token(o.rec.path).value := o.at] else d;
    forall k, c | c >= horizon
      ensures k in DistinctSince(h + [o], r, ip, c) <==> k in d' && d'[k] >= c
    {
      DistinctAfter(h, o, r, ip, c);
      assert k in DistinctSince(h, r, ip, c) <==> k in d && d[k] >= c;
    }
  }

  lemma DistinctAfter(h: seq<Sighting>, o: Sighting, r: EndpointRule, ip: string, c: Time)
    ensures DistinctSince(h + [o], r, ip, c)
         == DistinctSince(h, r, ip, c)
            + (if o.rec.ip == ip && Fires(r, o.rec) && o.at >= c then {r.token(o.rec.path).value} else {})
  {
    var h' := h + [o];
    assert h'[|h|] == o;
    assert forall i :: 0 <= i < |h| ==> h'[i] == h[i];
  }

  lemma PurgedLookup(d: map<string, Time>, cutoff: Time, k: string, c: Time)
    requires c >= cutoff
    ensures k in Purged(d, cutoff) && Purged(d, cutoff)[k] >= c <==> k in d && d[k] >= c
  {
  }

  /** A purge that does not reach into the window, or does not run, keeps the agreement. */
  lemma IdsKept(d: map<string, Time>, h: seq<Sighting>, r: EndpointRule, ip: string, horizon: Time, clock: Time,
                cutoff: Time)
    requires IdsAgree(d, h, r, ip, horizon, clock) && (cutoff <= horizon || |d| <= PURGE_ABOVE)
    ensures IdsAgree(Purged(d, cutoff), h, r, ip, horizon, clock)
  {
    var d' := Purged(d, cutoff);
    forall k, c | c >= horizon
      ensures k in DistinctSince(h, r, ip, c) <==> k in d' && d'[k] >= c
    {
      assert k in DistinctSince(h, r, ip, c) <==> k in d && d[k] >= c;
      if |d| > PURGE_ABOVE {
        PurgedLookup(d, cutoff, k, c);
      }
    }
  }

  /** When the purge runs, the size is the number of distinct IDs in the window; when it
      does not, at most 8 IDs are stored and no distinct ID of the window is missing. */
  lemma IdsCounted(d: map<string, Time>, h: seq<Sighting>, r: EndpointRule, ip: string, horizon: Time, clock: Time,
                   cutoff: Time)
    requires IdsAgree(d, h, r, ip, horizon, clock) && horizon <= cutoff
    ensures |DistinctSince(h, r, ip, cutoff)| <= |Purged(d, cutoff)|
    ensures |d| > PURGE_ABOVE ==> |Purged(d, cutoff)| == |DistinctSince(h, r, ip, cutoff)|
    ensures |d| <= PURGE_ABOVE ==> |Purged(d, cutoff)| <= PURGE_ABOVE
  {
    var d', live := Purged(d, cutoff), DistinctSince(h, r, ip, cutoff);
    assert forall k :: k in live <==> k in d && d[k] >= cutoff;
    assert live <= d'.Keys;
    SubsetCard(live, d'.Keys);
    if |d| > PURGE_ABOVE {
      assert d'.Keys == live;
    }
  }

  // ---- one record

  /** A deque that took the stamp of a record of its series and was then trimmed. */
  lemma SeriesAdvances(cfg: Config, dq: seq<Time>, h: seq<Sighting>, s: Series, width: Time, clock: Time, o: Sighting)
    requires SeriesAgrees(cfg, dq, h, s, clock - width, clock) && clock <= o.at
    ensures var dq' := Trimmed(if Belongs(cfg, s, o.rec) then dq + [o.at] else dq, o.at - width);
            && SeriesAgrees(cfg, dq', h + [o], s, o.at - width, o.at)
            && |dq'| == Recount(cfg, h + [o], s, o.at - width)
  {
    var grown, h' := if Belongs(cfg, s, o.rec) then dq + [o.at] else dq, h + [o];
    SeriesGrows(cfg, dq, h, s, clock - width, clock, o);
    SeriesTrimmed(cfg, grown, h', s, clock - width, o.at, o.at - width);
  }

  /** A deque of another series is not touched. */
  lemma SeriesWaits(cfg: Config, dq: seq<Time>, h: seq<Sighting>, s: Series, width: Time, clock: Time, o: Sighting)
    requires SeriesAgrees(cfg, dq, h, s, clock - width, clock) && clock <= o.at && !Belongs(cfg, s, o.rec)
    ensures SeriesAgrees(cfg, dq, h + [o], s, o.at - width, o.at)
  {
    SeriesGrows(cfg, dq, h, s, clock - width, clock, o);
    SeriesLater(cfg, dq, h + [o], s, clock - width, o.at, o.at - width, o.at);
  }

  lemma IpAdvances(cfg: Config, st: IpState, h: seq<Sighting>, clock: Time, o: Sighting)
    requires IpAgrees(cfg, st, h, o.rec.ip, clock) && clock <= o.at
    ensures var touched := Touched(st, o.rec.status, o.at);
            IpAgrees(cfg, if cfg.trusted(o.rec.ip) then touched else WithLogin(cfg, touched, o.rec, o.at),
                     h + [o], o.rec.ip, o.at)
  {
    var ip := o.rec.ip;
    SeriesAdvances(cfg, st.req, h, Requests(ip), BOT_WINDOW, clock, o);
    ErrorsAdvance(cfg, st.e4xx, h, clock, o);
    if !cfg.trusted(ip) {
      LoginsAdvance(cfg, st, h, clock, o);
    }
  }

  lemma ErrorsAdvance(cfg: Config, e4xx: seq<Time>, h: seq<Sighting>, clock: Time, o: Sighting)
    requires SeriesAgrees(cfg, e4xx, h, Errors(o.rec.ip), clock - SCAN_WINDOW, clock) && clock <= o.at
    ensures var e4xx' := Trimmed(if IsError(o.rec.status) then e4xx + [o.at] else e4xx, o.at - SCAN_WINDOW);
            && SeriesAgrees(cfg, e4xx', h + [o], Errors(o.rec.ip), o.at - SCAN_WINDOW, o.at)
            && |e4xx'| == Recount(cfg, h + [o], Errors(o.rec.ip), o.at - SCAN_WINDOW)
  {
    SeriesAdvances(cfg, e4xx, h, Errors(o.rec.ip), SCAN_WINDOW, clock, o);
  }

  lemma LoginsAdvance(cfg: Config, st: IpState, h: seq<Sighting>, clock: Time, o: Sighting)
    requires SeriesAgrees(cfg, st.auth, h, Logins(o.rec.ip), clock - STUFF_WINDOW, clock) && clock <= o.at
    ensures var auth := WithLogin(cfg, st, o.rec, o.at).auth;
            && SeriesAgrees(cfg, auth, h + [o], Logins(o.rec.ip), o.at - STUFF_WINDOW, o.at)
            && (IsLogin(cfg, o.rec) ==> |auth| == Recount(cfg, h + [o], Logins(o.rec.ip), o.at - STUFF_WINDOW))
  {
    if IsLogin(cfg, o.rec) {
      SeriesAdvances(cfg, st.auth, h, Logins(o.rec.ip), STUFF_WINDOW, clock, o);
    } else {
      SeriesWaits(cfg, st.auth, h, Logins(o.rec.ip), STUFF_WINDOW, clock, o);
    }
  }

  lemma IpWaits(cfg: Config, st: IpState, h: seq<Sighting>, ip: string, clock: Time, o: Sighting)
    requires IpAgrees(cfg, st, h, ip, clock) && clock <= o.at && ip != o.rec.ip
    ensures IpAgrees(cfg, st, h + [o], ip, o.at)
  {
    SeriesWaits(cfg, st.req, h, Requests(ip), BOT_WINDOW, clock, o);
    SeriesWaits(cfg, st.e4xx, h, Errors(ip), SCAN_WINDOW, clock, o);
    if !cfg.trusted(ip) {
      SeriesWaits(cfg, st.auth, h, Logins(ip), STUFF_WINDOW, clock, o);
    }
  }

  lemma IdsLater(d: map<string, Time>, h: seq<Sighting>, r: EndpointRule, ip: string, horizon: Time, clock: Time,
                 horizon': Time, clock': Time)
    requires IdsAgree(d, h, r, ip, horizon, clock) && horizon <= horizon' && clock <= clock'
    ensures IdsAgree(d, h, r, ip, horizon', clock')
  {
  }

  /** A rule that the record does not hit keeps its window. */
  lemma RuleWaits(cfg: Config, w: Tracks, h: seq<Sighting>, r: EndpointRule, ip: string, clock: Time, o: Sighting)
    requires RuleAgrees(cfg, w, h, r, ip, clock) && clock <= o.at
    requires ip != o.rec.ip || !Fires(r, o.rec)
    ensures RuleAgrees(cfg, w, h + [o], r, ip, o.at)
  {
    var width := r.window as real;
    if Windowed(r) {
      SeriesWaits(cfg, Get(w.win, (r.name, ip), []), h, Hits(r, ip), width, clock, o);
    } else if r.kind == Enumeration {
      var d := Get(w.ids, (r.name, ip), map[]);
      IdsGrow(d, h, r, ip, clock - width, clock, o);
      IdsLater(d, h + [o], r, ip, clock - width, o.at, o.at - width, o.at);
    }
  }

  /** The dictionary agrees with the history without the record, or already with it. */
  ghost predicate IdsAround(d: map<string, Time>, h: seq<Sighting>, r: EndpointRule, clock: Time, o: Sighting) {
    || (IdsAgree(d, h, r, o.rec.ip, clock - r.window as real, clock) && clock <= o.at)
    || IdsAgree(d, h + [o], r, o.rec.ip, o.at - r.window as real, o.at)
  }

  /** Entering the ID of a hit, for the first time or again. */
  lemma IdsEnter(d: map<string, Time>, h: seq<Sighting>, r: EndpointRule, clock: Time, o: Sighting)
    requires IdsAround(d, h, r, clock, o) && Fires(r, o.rec)
    ensures IdsAgree(d[r.token(o.rec.path).value := o.at], h + [o], r, o.rec.ip, o.at - r.window as real, o.at)
  {
    var ip, width, d' := o.rec.ip, r.window as real, d[r.token(o.rec.path).value := o.at];
    if IdsAgree(d, h, r, ip, clock - width, clock) && clock <= o.at {
      IdsGrow(d, h, r, ip, clock - width, clock, o);
      IdsLater(d', h + [o], r, ip, clock - width, o.at, o.at - width, o.at);
    } else {
      IdsAgain(d, h, r, o.at - width, o);
    }
  }

  lemma IdsAgain(d: map<string, Time>, h: seq<Sighting>, r: EndpointRule, horizon: Time, o: Sighting)
    requires IdsAgree(d, h + [o], r, o.rec.ip, horizon, o.at) && Fires(r, o.rec)
    ensures IdsAgree(d[r.token(o.rec.path).value := o.at], h + [o], r, o.rec.ip, horizon, o.at)
  {
    var id, ip := r.token(o.rec.path).value, o.rec.ip;
    forall k, c | c >= horizon
      ensures k in DistinctSince(h + [o], r, ip, c) <==> k in d[id := o.at] && d[id := o.at][k] >= c
    {
      assert k in DistinctSince(h + [o], r, ip, c) <==> k in d && d[k] >= c;
      DistinctAfter(h, o, r, ip, c);
    }
  }

  lemma FewIds(d: map<string, Time>, r: EndpointRule)
    requires OwnIds(d, r) && !ManyIds(r)
    ensures |d| <= PURGE_ABOVE
  {
    assert |d| == |d.Keys|;
    assert |d.Keys| > PURGE_ABOVE ==> AreMany(r, d.Keys);
  }

  /** A hit, entered by the rule itself or by one that does not disturb it, and the purge
      that follows. */
  lemma IdsTurn(d: map<string, Time>, h: seq<Sighting>, r: EndpointRule, clock: Time, o: Sighting, purgedTo: int)
    requires IdsAround(d, h, r, clock, o) && Fires(r, o.rec) && OwnIds(d, r)
    requires purgedTo >= r.window || !ManyIds(r)
    ensures var d' := Purged(d[r.token(o.rec.path).value := o.at], o.at - purgedTo as real);
            IdsAgree(d', h + [o], r, o.rec.ip, o.at - r.window as real, o.at) && OwnIds(d', r)
  {
    var e := d[r.token(o.rec.path).value := o.at];
    IdsEnter(d, h, r, clock, o);
    assert Token(r, o.rec) == Some(r.token(o.rec.path).value);
    assert OwnIds(e, r);
    if purgedTo < r.window {
      FewIds(e, r);
    }
    IdsKept(e, h + [o], r, o.rec.ip, o.at - r.window as real, o.at, o.at - purgedTo as real);
  }

  lemma DequeAdvances(cfg: Config, dq: seq<Time>, h: seq<Sighting>, r: EndpointRule, clock: Time, o: Sighting)
    requires SeriesAgrees(cfg, dq, h, Hits(r, o.rec.ip), clock - r.window as real, clock) && clock <= o.at
    requires Fires(r, o.rec)
    ensures var dq' := Trimmed(dq + [o.at], o.at - r.window as real);
            && SeriesAgrees(cfg, dq', h + [o], Hits(r, o.rec.ip), o.at - r.window as real, o.at)
            && |dq'| == Recount(cfg, h + [o], Hits(r, o.rec.ip), o.at - r.window as real)
  {
    SeriesAdvances(cfg, dq, h, Hits(r, o.rec.ip), r.window as real, clock, o);
  }

  lemma WindowAdvances(cfg: Config, w: Tracks, h: seq<Sighting>, r: EndpointRule, clock: Time, o: Sighting)
    requires RuleAgrees(cfg, w, h, r, o.rec.ip, clock) && clock <= o.at && Fires(r, o.rec) && Windowed(r)
    ensures RuleAgrees(cfg, CheckRule(r, w, o.rec, o.at).0, h + [o], r, o.rec.ip, o.at)
    ensures CheckRule(r, w, o.rec, o.at).1 == NaiveRuleCount(cfg, h + [o], r, o.rec.ip, o.at)
  {
    DequeAdvances(cfg, Get(w.win, (r.name, o.rec.ip), []), h, r, clock, o);
  }

  /** How the size of a dictionary that took a hit relates to the distinct IDs of the
      window: it is their number, or at most 8 and possibly too large; the ID of the record
      itself is always counted. */
  lemma IdsEntered(d: map<string, Time>, h: seq<Sighting>, r: EndpointRule, clock: Time, o: Sighting)
    requires IdsAround(d, h, r, clock, o) && Fires(r, o.rec) && r.window >= 0
    ensures var cutoff := o.at - r.window as real;
            var n := |Purged(d[r.token(o.rec.path).value := o.at], cutoff)|;
            var naive := |DistinctSince(h + [o], r, o.rec.ip, cutoff)|;
            1 <= naive <= n && (n == naive || n <= PURGE_ABOVE)
  {
    var ip, cutoff := o.rec.ip, o.at - r.window as real;
    IdsEnter(d, h, r, clock, o);
    IdsCounted(d[r.token(o.rec.path).value := o.at], h + [o], r, ip, cutoff, o.at, cutoff);
    OwnIdCounted(h, r, o, cutoff);
  }

  lemma OwnIdCounted(h: seq<Sighting>, r: EndpointRule, o: Sighting, cutoff: Time)
    requires Fires(r, o.rec) && cutoff <= o.at
    ensures |DistinctSince(h + [o], r, o.rec.ip, cutoff)| >= 1
  {
    DistinctAfter(h, o, r, o.rec.ip, cutoff);
    SubsetCard({r.token(o.rec.path).value}, DistinctSince(h + [o], r, o.rec.ip, cutoff));
  }

  // ---- all rules

  /** The deque or the dictionary of the rule is the same in both. */
  predicate SameStore(w: Tracks, w': Tracks, r: EndpointRule, ip: string) {
    && (Windowed(r) ==> Get(w.win, (r.name, ip), []) == Get(w'.win, (r.name, ip), []))
    && (r.kind == Enumeration ==> Get(w.ids, (r.name, ip), map[]) == Get(w'.ids, (r.name, ip), map[]))
  }

  lemma RuleSame(cfg: Config, w: Tracks, w': Tracks, h: seq<Sighting>, r: EndpointRule, ip: string, clock: Time)
    requires RuleAgrees(cfg, w, h, r, ip, clock) && SameStore(w, w', r, ip)
    ensures RuleAgrees(cfg, w', h, r, ip, clock)
  {
  }

  /** A rule touches only the stores that it shares, and only when it fires. */
  lemma CheckRuleFrame(other: EndpointRule, w: Tracks, rec: Record, now: Time, r: EndpointRule, ip: string)
    ensures CheckRule(other, w, rec, now).0.ips == w.ips
    ensures ip != rec.ip || !Shares(other, r) || !Fires(other, rec) ==>
              SameStore(w, CheckRule(other, w, rec, now).0, r, ip)
  {
  }

  lemma {:induction false} CheckRulesFrame(rules: seq<EndpointRule>, w: Tracks, rec: Record, now: Time, k: nat,
                                           r: EndpointRule, ip: string)
    requires k <= |rules|
    ensures CheckRules(rules, w, rec, now, k).0.ips == w.ips
    ensures ip != rec.ip ==> SameStore(w, CheckRules(rules, w, rec, now, k).0, r, ip)
  {
    if k > 0 {
      CheckRulesFrame(rules, w, rec, now, k - 1, r, ip);
      CheckRuleFrame(rules[k - 1], CheckRules(rules, w, rec, now, k - 1).0, rec, now, r, ip);
    }
  }

  /** One of the first `k` rules that share the store fired. */
  ghost predicate Entering(rules: seq<EndpointRule>, r: EndpointRule, rec: Record, k: nat)
    requires k <= |rules|
  {
    exists j :: 0 <= j < k && Shares(rules[j], r) && Fires(rules[j], rec)
  }

  /** The store of rule `i` after `k` rules: as it was, or in agreement with the history
      that ends with the record. */
  ghost predicate Halfway(cfg: Config, w: Tracks, w': Tracks, h: seq<Sighting>, o: Sighting, i: int, k: int)
    requires 0 <= i < |cfg.rules| && 0 <= k <= |cfg.rules|
  {
    match Entering(cfg.rules, cfg.rules[i], o.rec, k)
    case true => RuleAgrees(cfg, w', h + [o], cfg.rules[i], o.rec.ip, o.at)
    case false => SameStore(w, w', cfg.rules[i], o.rec.ip)
  }

  lemma EnteringNext(rules: seq<EndpointRule>, r: EndpointRule, rec: Record, k: nat)
    requires k < |rules|
    ensures Entering(rules, r, rec, k + 1)
            <==> Entering(rules, r, rec, k) || (Shares(rules[k], r) && Fires(rules[k], rec))
  {
    if Shares(rules[k], r) && Fires(rules[k], rec) {
      assert 0 <= k < k + 1;
    }
  }

  /** Nobody else enters a stamp into the deque of an undisturbed rule. */
  lemma OnlySelf(cfg: Config, i: nat, j: nat, rec: Record)
    requires i < |cfg.rules| && j < |cfg.rules| && Undisturbed(cfg, i) && Windowed(cfg.rules[i])
    requires Shares(cfg.rules[j], cfg.rules[i]) && Fires(cfg.rules[j], rec)
    ensures j == i
  {
    assert CanFire(cfg.rules[j]);
  }

  lemma OnlySelfEnters(cfg: Config, i: nat, rec: Record, k: nat)
    requires i < |cfg.rules| && k <= |cfg.rules| && Undisturbed(cfg, i) && Windowed(cfg.rules[i])
    ensures Entering(cfg.rules, cfg.rules[i], rec, k) ==> i < k
  {
    if Entering(cfg.rules, cfg.rules[i], rec, k) {
      var j :| 0 <= j < k && Shares(cfg.rules[j], cfg.rules[i]) && Fires(cfg.rules[j], rec);
      OnlySelf(cfg, i, j, rec);
    }
  }

  /** Whoever enters an ID into the dictionary of an undisturbed rule enters the rule's own,
      and purges no more than the rule does. */
  lemma SameEntry(cfg: Config, i: nat, j: nat, rec: Record)
    requires i < |cfg.rules| && j < |cfg.rules| && Undisturbed(cfg, i) && cfg.rules[i].kind == Enumeration
    requires Shares(cfg.rules[j], cfg.rules[i]) && Fires(cfg.rules[j], rec)
    ensures Token(cfg.rules[i], rec) == Token(cfg.rules[j], rec)
    ensures cfg.rules[j].window >= cfg.rules[i].window || !ManyIds(cfg.rules[i])
  {
    assert CanFire(cfg.rules[j]);
    if j != i {
      assert !Foreign(cfg.rules[j], cfg.rules[i]);
    }
  }

  lemma WindowTurn(cfg: Config, w: Tracks, before: Tracks, h: seq<Sighting>, clock: Time, o: Sighting, i: nat, k: nat)
    requires i < |cfg.rules| && k < |cfg.rules| && Undisturbed(cfg, i) && Windowed(cfg.rules[i]) && clock <= o.at
    requires RuleAgrees(cfg, w, h, cfg.rules[i], o.rec.ip, clock)
    requires Halfway(cfg, w, before, h, o, i, k) && Shares(cfg.rules[k], cfg.rules[i]) && Fires(cfg.rules[k], o.rec)
    ensures RuleAgrees(cfg, CheckRule(cfg.rules[k], before, o.rec, o.at).0, h + [o], cfg.rules[i], o.rec.ip, o.at)
  {
    OnlySelf(cfg, i, k, o.rec);
    OnlySelfEnters(cfg, i, o.rec, k);
    RuleSame(cfg, w, before, h, cfg.rules[i], o.rec.ip, clock);
    WindowAdvances(cfg, before, h, cfg.rules[i], clock, o);
  }

  lemma IdsHalfway(cfg: Config, w: Tracks, before: Tracks, h: seq<Sighting>, clock: Time, o: Sighting, i: nat, k: nat)
    requires i < |cfg.rules| && k <= |cfg.rules| && cfg.rules[i].kind == Enumeration && clock <= o.at
    requires RuleAgrees(cfg, w, h, cfg.rules[i], o.rec.ip, clock) && Halfway(cfg, w, before, h, o, i, k)
    ensures var d := Get(before.ids, (cfg.rules[i].name, o.rec.ip), map[]);
            IdsAround(d, h, cfg.rules[i], clock, o) && OwnIds(d, cfg.rules[i])
  {
  }

  lemma EnumerationTurn(cfg: Config, w: Tracks, before: Tracks, h: seq<Sighting>, clock: Time, o: Sighting, i: nat,
                        k: nat)
    requires i < |cfg.rules| && k < |cfg.rules| && Undisturbed(cfg, i) && clock <= o.at
    requires cfg.rules[i].kind == Enumeration && RuleAgrees(cfg, w, h, cfg.rules[i], o.rec.ip, clock)
    requires Halfway(cfg, w, before, h, o, i, k) && Shares(cfg.rules[k], cfg.rules[i]) && Fires(cfg.rules[k], o.rec)
    ensures RuleAgrees(cfg, CheckRule(cfg.rules[k], before, o.rec, o.at).0, h + [o], cfg.rules[i], o.rec.ip, o.at)
  {
    SameEntry(cfg, i, k, o.rec);
    IdsHalfway(cfg, w, before, h, clock, o, i, k);
    IdsTurn(Get(before.ids, (cfg.rules[i].name, o.rec.ip), map[]), h, cfg.rules[i], clock, o, cfg.rules[k].window);
  }

  lemma OneTurn(cfg: Config, w: Tracks, before: Tracks, h: seq<Sighting>, clock: Time, o: Sighting, i: nat, k: nat)
    requires i < |cfg.rules| && k < |cfg.rules| && Undisturbed(cfg, i) && clock <= o.at
    requires RuleAgrees(cfg, w, h, cfg.rules[i], o.rec.ip, clock) && Halfway(cfg, w, before, h, o, i, k)
    ensures Halfway(cfg, w, CheckRule(cfg.rules[k], before, o.rec, o.at).0, h, o, i, k + 1)
  {
    var r, after := cfg.rules[i], CheckRule(cfg.rules[k], before, o.rec, o.at).0;
    EnteringNext(cfg.rules, r, o.rec, k);
    if Shares(cfg.rules[k], r) && Fires(cfg.rules[k], o.rec) {
      if Windowed(r) {
        WindowTurn(cfg, w, before, h, clock, o, i, k);
      } else {
        EnumerationTurn(cfg, w, before, h, clock, o, i, k);
      }
    } else {
      CheckRuleFrame(cfg.rules[k], before, o.rec, o.at, r, o.rec.ip);
      if Entering(cfg.rules, r, o.rec, k) {
        RuleSame(cfg, before, after, h + [o], r, o.rec.ip, o.at);
      }
    }
  }

  lemma NoTurns(cfg: Config, w: Tracks, h: seq<Sighting>, o: Sighting, i: nat)
    requires i < |cfg.rules|
    ensures Halfway(cfg, w, CheckRules(cfg.rules, w, o.rec, o.at, 0).0, h, o, i, 0)
  {
  }

  lemma LastRule(rules: seq<EndpointRule>, w: Tracks, rec: Record, now: Time, k: nat)
    requires k < |rules|
    ensures CheckRules(rules, w, rec, now, k + 1).0
            == CheckRule(rules[k], CheckRules(rules, w, rec, now, k).0, rec, now).0
  {
  }

  /** Whatever the store is like, the turn of any rule keeps it on its way. */
  ghost predicate TurnsKeep(cfg: Config, w: Tracks, h: seq<Sighting>, o: Sighting, i: nat)
    requires i < |cfg.rules|
  {
    forall before: Tracks, j: nat :: j < |cfg.rules| && Halfway(cfg, w, before, h, o, i, j) ==>
      Halfway(cfg, w, CheckRule(cfg.rules[j], before, o.rec, o.at).0, h, o, i, j + 1)
  }

  lemma {:induction false} TurnsCompose(cfg: Config, w: Tracks, h: seq<Sighting>, o: Sighting, i: nat, k: nat)
    requires i < |cfg.rules| && k <= |cfg.rules| && TurnsKeep(cfg, w, h, o, i)
    ensures Halfway(cfg, w, CheckRules(cfg.rules, w, o.rec, o.at, k).0, h, o, i, k)
    decreases k
  {
    if k == 0 {
      NoTurns(cfg, w, h, o, i);
    } else {
      TurnsCompose(cfg, w, h, o, i, k - 1);
      LastRule(cfg.rules, w, o.rec, o.at, k - 1);
    }
  }

  /** The rules in turn, as the store of one undisturbed rule sees them. */
  lemma RulesInTurn(cfg: Config, w: Tracks, h: seq<Sighting>, clock: Time, o: Sighting, i: nat, k: nat)
    requires i < |cfg.rules| && k <= |cfg.rules| && Undisturbed(cfg, i) && clock <= o.at
    requires RuleAgrees(cfg, w, h, cfg.rules[i], o.rec.ip, clock)
    ensures Halfway(cfg, w, CheckRules(cfg.rules, w, o.rec, o.at, k).0, h, o, i, k)
  {
    forall before: Tracks, j: nat | j < |cfg.rules| && Halfway(cfg, w, before, h, o, i, j)
      ensures Halfway(cfg, w, CheckRule(cfg.rules[j], before, o.rec, o.at).0, h, o, i, j + 1)
    {
      OneTurn(cfg, w, before, h, clock, o, i, j);
    }
    TurnsCompose(cfg, w, h, o, i, k);
  }

  /** The number that the engine compares with the limit of rule `i` when the record is fed. */
  function Compared(cfg: Config, w: Tracks, o: Sighting, i: nat): nat
    requires i < |cfg.rules|
  {
    CheckRule(cfg.rules[i], CheckRules(cfg.rules, w, o.rec, o.at, i).0, o.rec, o.at).1
  }

  // ---- the record's own hit is in its window

  lemma {:induction false} TrimmedKeepsLast(s: seq<Time>, cutoff: Time)
    requires s != [] && s[|s| - 1] >= cutoff
    ensures |Trimmed(s, cutoff)| >= 1
  {
    if s[0] < cutoff {
      TrimmedKeepsLast(s[1..], cutoff);
    }
  }

  lemma OwnHitCompared(cfg: Config, w: Tracks, i: nat, o: Sighting)
    requires i < |cfg.rules| && Tracked(cfg.rules[i]) && Fires(cfg.rules[i], o.rec) && cfg.rules[i].window >= 0
    ensures Compared(cfg, w, o, i) >= 1
  {
    var before, r := CheckRules(cfg.rules, w, o.rec, o.at, i).0, cfg.rules[i];
    var cutoff := o.at - r.window as real;
    if Windowed(r) {
      TrimmedKeepsLast(Get(before.win, (r.name, o.rec.ip), []) + [o.at], cutoff);
    } else {
      var id := r.token(o.rec.path).value;
      assert id in Purged(Get(before.ids, (r.name, o.rec.ip), map[])[id := o.at], cutoff);
    }
  }

  lemma OwnHitCounted(cfg: Config, h: seq<Sighting>, r: EndpointRule, o: Sighting)
    requires Tracked(r) && Fires(r, o.rec) && r.window >= 0
    ensures NaiveRuleCount(cfg, h + [o], r, o.rec.ip, o.at) >= 1
  {
    if Windowed(r) {
      RecountAfter(cfg, h, o, Hits(r, o.rec.ip), o.at - r.window as real);
    } else {
      OwnIdCounted(h, r, o, o.at - r.window as real);
    }
  }

  // ---- what is compared

  lemma DequeCompared(cfg: Config, w: Tracks, h: seq<Sighting>, clock: Time, o: Sighting, i: nat)
    requires i < |cfg.rules| && Undisturbed(cfg, i) && clock <= o.at && Windowed(cfg.rules[i])
    requires RuleAgrees(cfg, w, h, cfg.rules[i], o.rec.ip, clock) && Fires(cfg.rules[i], o.rec)
    ensures Compared(cfg, w, o, i) == NaiveRuleCount(cfg, h + [o], cfg.rules[i], o.rec.ip, o.at)
  {
    var before, r := CheckRules(cfg.rules, w, o.rec, o.at, i).0, cfg.rules[i];
    RulesInTurn(cfg, w, h, clock, o, i, i);
    OnlySelfEnters(cfg, i, o.rec, i);
    RuleSame(cfg, w, before, h, r, o.rec.ip, clock);
    WindowAdvances(cfg, before, h, r, clock, o);
  }

  lemma IdsCompared(cfg: Config, w: Tracks, h: seq<Sighting>, clock: Time, o: Sighting, i: nat)
    requires i < |cfg.rules| && Undisturbed(cfg, i) && cfg.rules[i].window >= 0 && clock <= o.at
    requires RuleAgrees(cfg, w, h, cfg.rules[i], o.rec.ip, clock) && Fires(cfg.rules[i], o.rec)
    requires cfg.rules[i].kind == Enumeration
    ensures var n, naive := Compared(cfg, w, o, i), NaiveRuleCount(cfg, h + [o], cfg.rules[i], o.rec.ip, o.at);
            1 <= naive <= n && (n == naive || n <= PURGE_ABOVE)
  {
    var before, r := CheckRules(cfg.rules, w, o.rec, o.at, i).0, cfg.rules[i];
    RulesInTurn(cfg, w, h, clock, o, i, i);
    IdsHalfway(cfg, w, before, h, clock, o, i, i);
    IdsEntered(Get(before.ids, (r.name, o.rec.ip), map[]), h, r, clock, o);
  }

  /** For a deque it is the recount; for a dictionary it is the recount, or at most 8. */
  lemma ComparedCounts(cfg: Config, w: Tracks, h: seq<Sighting>, clock: Time, o: Sighting, i: nat)
    requires i < |cfg.rules| && Undisturbed(cfg, i) && cfg.rules[i].window >= 0 && clock <= o.at
    requires RuleAgrees(cfg, w, h, cfg.rules[i], o.rec.ip, clock) && Fires(cfg.rules[i], o.rec) && Tracked(cfg.rules[i])
    ensures var n, naive := Compared(cfg, w, o, i), NaiveRuleCount(cfg, h + [o], cfg.rules[i], o.rec.ip, o.at);
            if Windowed(cfg.rules[i]) then n == naive else 1 <= naive <= n && (n == naive || n <= PURGE_ABOVE)
  {
    if Windowed(cfg.rules[i]) {
      DequeCompared(cfg, w, h, clock, o, i);
    } else {
      IdsCompared(cfg, w, h, clock, o, i);
    }
  }

  /** The stores of all sound rules agree with the history. */
  ghost predicate RulesAgree(cfg: Config, w: Tracks, h: seq<Sighting>, ip: string, clock: Time) {
    forall i :: 0 <= i < |cfg.rules| && Sound(cfg, i) ==> RuleAgrees(cfg, w, h, cfg.rules[i], ip, clock)
  }

  /** What the engine decides about a record and rule `i`, and what the recount does. */
  function Decided(cfg: Config, w: Tracks, o: Sighting, i: nat): seq<Decision>
    requires i < |cfg.rules|
  {
    RuleDecision(cfg.rules[i], o.rec, Compared(cfg, w, o, i))
  }

  function NaivelyDecided(cfg: Config, h: seq<Sighting>, o: Sighting, i: nat): seq<Decision>
    requires i < |cfg.rules|
  {
    RuleDecision(cfg.rules[i], o.rec, NaiveRuleCount(cfg, h + [o], cfg.rules[i], o.rec.ip, o.at))
  }

  /** An exact rule decides as the naive recount does. */
  lemma RuleDecides(cfg: Config, w: Tracks, h: seq<Sighting>, clock: Time, o: Sighting, i: nat)
    requires WellFormed(cfg) && AllExact(cfg) && i < |cfg.rules| && clock <= o.at
    requires RulesAgree(cfg, w, h, o.rec.ip, clock)
    ensures Decided(cfg, w, o, i) == NaivelyDecided(cfg, h, o, i)
  {
    if Fires(cfg.rules[i], o.rec) && Tracked(cfg.rules[i]) {
      assert CanFire(cfg.rules[i]);
      ComparedCounts(cfg, w, h, clock, o, i);
    }
  }

  ghost predicate AllAgreed(cfg: Config, w: Tracks, h: seq<Sighting>, o: Sighting, k: nat)
    requires k <= |cfg.rules|
    decreases k
  {
    k == 0 || (AllAgreed(cfg, w, h, o, k - 1) && Decided(cfg, w, o, k - 1) == NaivelyDecided(cfg, h, o, k - 1))
  }

  lemma {:induction false} RulesDecide(cfg: Config, w: Tracks, h: seq<Sighting>, o: Sighting, k: nat)
    requires k <= |cfg.rules| && AllAgreed(cfg, w, h, o, k)
    ensures CheckRules(cfg.rules, w, o.rec, o.at, k).1 == NaiveRules(cfg, h + [o], o.rec, o.at, k)
    decreases k
  {
    if k > 0 {
      RulesDecide(cfg, w, h, o, k - 1);
      OneMoreDecides(cfg, w, h, o, k);
    }
  }

  lemma {:induction false} EachAgreed(cfg: Config, w: Tracks, h: seq<Sighting>, o: Sighting, k: nat)
    requires k <= |cfg.rules|
    requires forall i: nat :: i < |cfg.rules| ==> Decided(cfg, w, o, i) == NaivelyDecided(cfg, h, o, i)
    ensures AllAgreed(cfg, w, h, o, k)
    decreases k
  {
    if k > 0 {
      EachAgreed(cfg, w, h, o, k - 1);
    }
  }

  lemma OneMoreDecides(cfg: Config, w: Tracks, h: seq<Sighting>, o: Sighting, k: nat)
    requires 0 < k <= |cfg.rules| && Decided(cfg, w, o, k - 1) == NaivelyDecided(cfg, h, o, k - 1)
    requires CheckRules(cfg.rules, w, o.rec, o.at, k - 1).1 == NaiveRules(cfg, h + [o], o.rec, o.at, k - 1)
    ensures CheckRules(cfg.rules, w, o.rec, o.at, k).1 == NaiveRules(cfg, h + [o], o.rec, o.at, k)
  {
  }

  // ---- the two steps of a run

  lemma EndpointsKeepIps(cfg: Config, w: Tracks, o: Sighting)
    ensures CheckRules(cfg.rules, w, o.rec, o.at, |cfg.rules|).0.ips == w.ips
  {
    if cfg.rules == [] {
    } else {
      CheckRulesFrame(cfg.rules, w, o.rec, o.at, |cfg.rules|, cfg.rules[0], "");
    }
  }

  /** Feeding a record keeps the agreement, whatever the limits of the rules and whatever
      rules there are beside a sound one. */
  lemma FeedKeeps(cfg: Config, w: Tracks, h: seq<Sighting>, clock: Time, o: Sighting, verdict: Option<bool>)
    requires Agrees(cfg, w, h, clock) && clock <= o.at
    ensures Agrees(cfg, Observe(cfg, w, verdict, o.rec, o.at).0, h + [o], o.at)
  {
    var w' := Observe(cfg, w, verdict, o.rec, o.at).0;
    var st := Get(w.ips, o.rec.ip, NEW_IP);
    var touched := Touched(st, o.rec.status, o.at);
    var st' := if cfg.trusted(o.rec.ip) then touched else WithLogin(cfg, touched, o.rec, o.at);
    var entered := w.(ips := w.ips[o.rec.ip := st']);
    EndpointsKeepIps(cfg, entered, o);
    assert w'.ips == entered.ips;
    forall ip
      ensures IpAgrees(cfg, Get(w'.ips, ip, NEW_IP), h + [o], ip, o.at)
    {
      assert IpAgrees(cfg, Get(w.ips, ip, NEW_IP), h, ip, clock);
      if ip == o.rec.ip {
        IpAdvances(cfg, st, h, clock, o);
      } else {
        IpWaits(cfg, Get(w.ips, ip, NEW_IP), h, ip, clock, o);
      }
    }
    forall ip, i | 0 <= i < |cfg.rules| && !cfg.trusted(ip) && Sound(cfg, i)
      ensures RuleAgrees(cfg, w', h + [o], cfg.rules[i], ip, o.at)
    {
      FeedKeepsRule(cfg, w, h, clock, o, verdict, ip, i);
    }
  }

  lemma FeedKeepsRule(cfg: Config, w: Tracks, h: seq<Sighting>, clock: Time, o: Sighting, verdict: Option<bool>,
                      ip: string, i: nat)
    requires clock <= o.at && i < |cfg.rules| && Undisturbed(cfg, i) && !cfg.trusted(ip)
    requires RuleAgrees(cfg, w, h, cfg.rules[i], ip, clock)
    ensures RuleAgrees(cfg, Observe(cfg, w, verdict, o.rec, o.at).0, h + [o], cfg.rules[i], ip, o.at)
  {
    var st' := WithLogin(cfg, Touched(Get(w.ips, o.rec.ip, NEW_IP), o.rec.status, o.at), o.rec, o.at);
    var entered := w.(ips := w.ips[o.rec.ip := st']);
    if ip == o.rec.ip {
      RuleSame(cfg, w, entered, h, cfg.rules[i], ip, clock);
      EndpointsKeepRule(cfg, entered, h, clock, o, i);
    } else {
      CheckRulesFrame(cfg.rules, entered, o.rec, o.at, |cfg.rules|, cfg.rules[i], ip);
      var w' := Observe(cfg, w, verdict, o.rec, o.at).0;
      RuleSame(cfg, w, w', h, cfg.rules[i], ip, clock);
      RuleWaits(cfg, w', h, cfg.rules[i], ip, clock, o);
    }
  }

  lemma EndpointsKeepRule(cfg: Config, w: Tracks, h: seq<Sighting>, clock: Time, o: Sighting, i: nat)
    requires clock <= o.at && i < |cfg.rules| && Undisturbed(cfg, i)
    requires RuleAgrees(cfg, w, h, cfg.rules[i], o.rec.ip, clock)
    ensures RuleAgrees(cfg, CheckRules(cfg.rules, w, o.rec, o.at, |cfg.rules|).0, h + [o], cfg.rules[i], o.rec.ip, o.at)
  {
    var after := CheckRules(cfg.rules, w, o.rec, o.at, |cfg.rules|).0;
    RulesInTurn(cfg, w, h, clock, o, i, |cfg.rules|);
    if !Entering(cfg.rules, cfg.rules[i], o.rec, |cfg.rules|) && Tracked(cfg.rules[i]) {
      RuleSame(cfg, w, after, h, cfg.rules[i], o.rec.ip, clock);
      RuleWaits(cfg, after, h, cfg.rules[i], o.rec.ip, clock, o);
    }
  }

  /** The engine raises exactly the events of the naive recount, in the same order. */
  lemma FeedDecides(cfg: Config, w: Tracks, h: seq<Sighting>, clock: Time, o: Sighting, verdict: Option<bool>)
    requires WellFormed(cfg) && AllExact(cfg) && Agrees(cfg, w, h, clock) && clock <= o.at
    ensures Observe(cfg, w, verdict, o.rec, o.at).1 == NaiveDecisions(cfg, h + [o], verdict)
  {
    if !cfg.trusted(o.rec.ip) {
      UntrustedDecides(cfg, w, h, clock, o);
    }
  }

  lemma UntrustedDecides(cfg: Config, w: Tracks, h: seq<Sighting>, clock: Time, o: Sighting)
    requires WellFormed(cfg) && AllExact(cfg) && Agrees(cfg, w, h, clock) && clock <= o.at && !cfg.trusted(o.rec.ip)
    ensures Volumes(cfg, w, o.rec, o.at) == NaiveVolumes(cfg, h + [o], o.rec, o.at)
    ensures Endpoints(cfg, w, o.rec, o.at).1 == NaiveRules(cfg, h + [o], o.rec, o.at, |cfg.rules|)
  {
    assert IpAgrees(cfg, Get(w.ips, o.rec.ip, NEW_IP), h, o.rec.ip, clock);
    VolumesDecide(cfg, w, h, clock, o);
    EndpointsDecide(cfg, w, h, clock, o, Updated(cfg, w, o.rec, o.at));
  }

  lemma EndpointsDecide(cfg: Config, w: Tracks, h: seq<Sighting>, clock: Time, o: Sighting, st: IpState)
    requires WellFormed(cfg) && AllExact(cfg) && clock <= o.at
    requires RulesAgree(cfg, w, h, o.rec.ip, clock)
    ensures CheckRules(cfg.rules, w.(ips := w.ips[o.rec.ip := st]), o.rec, o.at, |cfg.rules|).1
         == NaiveRules(cfg, h + [o], o.rec, o.at, |cfg.rules|)
  {
    var entered := w.(ips := w.ips[o.rec.ip := st]);
    forall i | 0 <= i < |cfg.rules| && Sound(cfg, i)
      ensures RuleAgrees(cfg, entered, h, cfg.rules[i], o.rec.ip, clock)
    {
      RuleSame(cfg, w, entered, h, cfg.rules[i], o.rec.ip, clock);
    }
    forall i: nat | i < |cfg.rules| ensures Decided(cfg, entered, o, i) == NaivelyDecided(cfg, h, o, i) {
      RuleDecides(cfg, entered, h, clock, o, i);
    }
    EachAgreed(cfg, entered, h, o, |cfg.rules|);
    RulesDecide(cfg, entered, h, o, |cfg.rules|);
  }

  /** The lengths that the volume rules compare are the naive counts. */
  lemma RequestsCounted(cfg: Config, req: seq<Time>, h: seq<Sighting>, clock: Time, o: Sighting)
    requires SeriesAgrees(cfg, req, h, Requests(o.rec.ip), clock - BOT_WINDOW, clock) && clock <= o.at
    ensures var req' := Trimmed(req + [o.at], o.at - BOT_WINDOW);
            && |req'| == Recount(cfg, h + [o], Requests(o.rec.ip), o.at - BOT_WINDOW)
            && CountSince(req', o.at - RATE_WINDOW) == Recount(cfg, h + [o], Requests(o.rec.ip), o.at - RATE_WINDOW)
  {
    SeriesAdvances(cfg, req, h, Requests(o.rec.ip), BOT_WINDOW, clock, o);
  }

  lemma VolumesCounted(cfg: Config, st: IpState, h: seq<Sighting>, clock: Time, o: Sighting)
    requires IpAgrees(cfg, st, h, o.rec.ip, clock) && clock <= o.at && !cfg.trusted(o.rec.ip)
    ensures var ip, h', st' := o.rec.ip, h + [o], WithLogin(cfg, Touched(st, o.rec.status, o.at), o.rec, o.at);
            && |st'.e4xx| == Recount(cfg, h', Errors(ip), o.at - SCAN_WINDOW)
            && CountSince(st'.req, o.at - RATE_WINDOW) == Recount(cfg, h', Requests(ip), o.at - RATE_WINDOW)
            && |st'.req| == Recount(cfg, h', Requests(ip), o.at - BOT_WINDOW)
            && (IsLogin(cfg, o.rec) ==> |st'.auth| == Recount(cfg, h', Logins(ip), o.at - STUFF_WINDOW))
  {
    ErrorsAdvance(cfg, st.e4xx, h, clock, o);
    RequestsCounted(cfg, st.req, h, clock, o);
    LoginsAdvance(cfg, st, h, clock, o);
  }

  lemma VolumesDecide(cfg: Config, w: Tracks, h: seq<Sighting>, clock: Time, o: Sighting)
    requires IpAgrees(cfg, Get(w.ips, o.rec.ip, NEW_IP), h, o.rec.ip, clock) && clock <= o.at && !cfg.trusted(o.rec.ip)
    ensures Volumes(cfg, w, o.rec, o.at) == NaiveVolumes(cfg, h + [o], o.rec, o.at)
  {
    VolumesCounted(cfg, Get(w.ips, o.rec.ip, NEW_IP), h, clock, o);
    SameVolumes(cfg, w, Updated(cfg, w, o.rec, o.at), h + [o], o.rec, o.at);
  }

  lemma SameVolumes(cfg: Config, w: Tracks, st: IpState, h: seq<Sighting>, rec: Record, now: Time)
    requires st == Updated(cfg, w, rec, now)
    requires |st.e4xx| == Recount(cfg, h, Errors(rec.ip), now - SCAN_WINDOW)
    requires CountSince(st.req, now - RATE_WINDOW) == Recount(cfg, h, Requests(rec.ip), now - RATE_WINDOW)
    requires |st.req| == Recount(cfg, h, Requests(rec.ip), now - BOT_WINDOW)
    requires IsLogin(cfg, rec) ==> |st.auth| == Recount(cfg, h, Logins(rec.ip), now - STUFF_WINDOW)
    ensures Volumes(cfg, w, rec, now) == NaiveVolumes(cfg, h, rec, now)
  {
  }

  /** Pruning keeps the agreement in both of its modes. */
  lemma PruneKeeps(cfg: Config, w: Tracks, h: seq<Sighting>, clock: Time, now: Time)
    requires Agrees(cfg, w, h, clock) && clock <= now
    ensures Agrees(cfg, Pruned(w, now), h, now)
  {
    var w' := Pruned(w, now);
    forall ip
      ensures IpAgrees(cfg, Get(w'.ips, ip, NEW_IP), h, ip, now)
    {
      PruneKeepsIp(cfg, w, h, clock, now, ip);
    }
    forall ip, i | 0 <= i < |cfg.rules| && !cfg.trusted(ip) && Sound(cfg, i)
      ensures RuleAgrees(cfg, w', h, cfg.rules[i], ip, now)
    {
      PruneKeepsRule(cfg, w, h, clock, now, cfg.rules[i], ip);
    }
  }

  lemma PruneKeepsIp(cfg: Config, w: Tracks, h: seq<Sighting>, clock: Time, now: Time, ip: string)
    requires IpAgrees(cfg, Get(w.ips, ip, NEW_IP), h, ip, clock) && clock <= now
    ensures IpAgrees(cfg, Get(Pruned(w, now).ips, ip, NEW_IP), h, ip, now)
  {
    var st := Get(w.ips, ip, NEW_IP);
    if ip in w.ips && ip !in Pruned(w, now).ips {
      SeriesForgotten(cfg, st.req, h, Requests(ip), clock - BOT_WINDOW, clock, now - BOT_WINDOW, now);
      SeriesForgotten(cfg, st.e4xx, h, Errors(ip), clock - SCAN_WINDOW, clock, now - SCAN_WINDOW, now);
      if !cfg.trusted(ip) {
        SeriesForgotten(cfg, st.auth, h, Logins(ip), clock - STUFF_WINDOW, clock, now - STUFF_WINDOW, now);
      }
    }
  }

  lemma PruneKeepsRule(cfg: Config, w: Tracks, h: seq<Sighting>, clock: Time, now: Time, r: EndpointRule, ip: string)
    requires RuleAgrees(cfg, w, h, r, ip, clock) && clock <= now && r.window <= 3600
    ensures RuleAgrees(cfg, Pruned(w, now), h, r, ip, now)
  {
    var key, width := (r.name, ip), r.window as real;
    if Windowed(r) {
      if key in w.win && WindowStale(w.win[key], now - STALE_SECS) {
        SeriesForgotten(cfg, w.win[key], h, Hits(r, ip), clock - width, clock, now - width, now);
      } else {
        SeriesLater(cfg, Get(w.win, key, []), h, Hits(r, ip), clock - width, clock, now - width, now);
      }
    } else if r.kind == Enumeration {
      var d := Get(w.ids, key, map[]);
      IdsLater(d, h, r, ip, clock - width, clock, now - width, now);
      if key in w.ids && IdsStale(d, now - STALE_SECS) {
        IdsForgotten(d, h, r, ip, now - width, now);
      }
    }
  }

  lemma IdsForgotten(d: map<string, Time>, h: seq<Sighting>, r: EndpointRule, ip: string, horizon: Time, clock: Time)
    requires IdsAgree(d, h, r, ip, horizon, clock)
    requires forall k :: k in d ==> d[k] < horizon
    ensures IdsAgree(map[], h, r, ip, horizon, clock)
  {
  }

  /** Before the first record every window is empty and so is the history. */
  lemma FreshAgrees(cfg: Config, clock: Time)
    ensures Agrees(cfg, NO_TRACKS, [], clock)
  {
  }

  lemma AgreesLater(cfg: Config, w: Tracks, h: seq<Sighting>, clock: Time, now: Time)
    requires Agrees(cfg, w, h, clock) && clock <= now
    ensures Agrees(cfg, w, h, now)
  {
    forall ip
      ensures IpAgrees(cfg, Get(w.ips, ip, NEW_IP), h, ip, now)
    {
      IpLater(cfg, Get(w.ips, ip, NEW_IP), h, ip, clock, now);
    }
    forall ip, i | 0 <= i < |cfg.rules| && !cfg.trusted(ip) && Sound(cfg, i)
      ensures RuleAgrees(cfg, w, h, cfg.rules[i], ip, now)
    {
      assert RuleAgrees(cfg, w, h, cfg.rules[i], ip, clock);
      RuleLater(cfg, w, h, cfg.rules[i], ip, clock, now);
    }
  }

  lemma IpLater(cfg: Config, st: IpState, h: seq<Sighting>, ip: string, clock: Time, now: Time)
    requires IpAgrees(cfg, st, h, ip, clock) && clock <= now
    ensures IpAgrees(cfg, st, h, ip, now)
  {
  }

  lemma RuleLater(cfg: Config, w: Tracks, h: seq<Sighting>, r: EndpointRule, ip: string, clock: Time, now: Time)
    requires RuleAgrees(cfg, w, h, r, ip, clock) && clock <= now
    ensures RuleAgrees(cfg, w, h, r, ip, now)
  {
  }
}
