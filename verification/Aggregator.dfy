/** The community aggregator (secwatch/aggregator.py): a fixed rate window per reporter, one
    row per reporter and IP, and a list of the IPs that enough reporters flagged. */
module Aggregator {
  import opened Collections
  import opened Windows

  const RATE_WINDOW: Time := 60.0
  const DAY: Time := 86400.0

  datatype Limits = Limits(perMinute: int, consensus: int, days: int, public: string -> bool)

  /** `_rate[reporter]`: when the window began, and the reports counted in it. */
  datatype Rate = Rate(start: Time, count: int)

  datatype Key = Key(reporter: string, ip: string)

  datatype Row = Row(rule: string, ts: Time)

  datatype State = State(rate: map<string, Rate>, rows: map<Key, Row>)

  datatype Outcome = Stored | BadReport | RateLimited

  /** The window after this report was counted in it. */
  function Counted(held: Option<Rate>, now: Time): Rate {
    var w := if held.Some? then held.value else Rate(now, 0);
    if now - w.start > RATE_WINDOW then Rate(now, 1) else Rate(w.start, w.count + 1)
  }

  function Held<K, V>(m: map<K, V>, k: K): Option<V> { if k in m then Some(m[k]) else None }

  datatype Request = Request(reporter: string, ip: string, rule: string, now: Time)

  /** `report`. */
  function Reported(limits: Limits, s: State, q: Request): (State, Outcome) {
    var reporter := Clip(q.reporter, 64);
    if reporter == "" || !limits.public(q.ip) then (s, BadReport)
    else
      var w := Counted(Held(s.rate, reporter), q.now);
      if w.count > limits.perMinute then (State(s.rate[reporter := w], s.rows), RateLimited)
      else (State(s.rate[reporter := w], s.rows[Key(reporter, q.ip) := Row(Clip(q.rule, 40), q.now)]), Stored)
  }

  /** The reporters whose row for the IP is no older than `since`. */
  function Reporters(rows: map<Key, Row>, ip: string, since: Time): set<string> {
    set k | k in rows && k.ip == ip && rows[k].ts >= since :: k.reporter
  }

  /** `blocklist`: the listed IPs with their number of reporters. */
  function Listed(limits: Limits, rows: map<Key, Row>, now: Time): map<string, int> {
    var since := now - limits.days as real * DAY;
    var ips := set k | k in rows && rows[k].ts >= since :: k.ip;
    map ip | ip in ips && |Reporters(rows, ip, since)| >= limits.consensus :: |Reporters(rows, ip, since)|
  }

  // ---- the history of accepted reports

  datatype Accepted = Accepted(reporter: string, ip: string, ts: Time)

  datatype History = History(state: State, log: seq<Accepted>)

  function Extended(limits: Limits, h: History, q: Request): History {
    var (s, outcome) := Reported(limits, h.state, q);
    History(s, if outcome == Stored then h.log + [Accepted(Clip(q.reporter, 64), q.ip, q.now)] else h.log)
  }

  /** Everything since the aggregator started with an empty database. */
  function Run(limits: Limits, qs: seq<Request>): History
    decreases |qs|
  {
    if qs == [] then History(State(map[], map[]), [])
    else Extended(limits, Run(limits, qs[..|qs| - 1]), qs[|qs| - 1])
  }

  ghost predicate InOrder(qs: seq<Request>) {
    forall i, j :: 0 <= i < j < |qs| ==> qs[i].now <= qs[j].now
  }

  /** The accepted reports of a reporter from time `lo` on. */
  function CountFrom(log: seq<Accepted>, r: string, lo: Time): int
    decreases |log|
  {
    if log == [] then 0
    else CountFrom(log[..|log| - 1], r, lo) + (if log[|log| - 1].reporter == r && log[|log| - 1].ts >= lo then 1 else 0)
  }

  /** The accepted reports of a reporter in the closed interval from `lo` to `hi`. */
  function CountIn(log: seq<Accepted>, r: string, lo: Time, hi: Time): int
    decreases |log|
  {
    if log == [] then 0
    else
      var last := log[|log| - 1];
      CountIn(log[..|log| - 1], r, lo, hi) + (if last.reporter == r && lo <= last.ts <= hi then 1 else 0)
  }

  lemma {:induction false} CountInFrom(log: seq<Accepted>, r: string, lo: Time, hi: Time)
    ensures 0 <= CountIn(log, r, lo, hi) <= CountFrom(log, r, lo)
    decreases |log|
  {
    if log != [] {
      CountInFrom(log[..|log| - 1], r, lo, hi);
    }
  }

  lemma {:induction false} CountFromLater(log: seq<Accepted>, r: string, lo: Time, lo': Time)
    requires lo <= lo'
    ensures 0 <= CountFrom(log, r, lo') <= CountFrom(log, r, lo)
    decreases |log|
  {
    if log != [] {
      CountFromLater(log[..|log| - 1], r, lo, lo');
    }
  }

  lemma {:induction false} CountFromNone(log: seq<Accepted>, r: string, lo: Time)
    requires forall i :: 0 <= i < |log| && log[i].reporter == r ==> log[i].ts < lo
    ensures CountFrom(log, r, lo) == 0
    decreases |log|
  {
    if log != [] {
      CountFromNone(log[..|log| - 1], r, lo);
    }
  }

  function Quota(limits: Limits): int { if limits.perMinute < 0 then 0 else limits.perMinute }

  /** The most that a window can accept after its first moment. */
  function Carry(limits: Limits): int { if limits.perMinute < 1 then 0 else limits.perMinute - 1 }

  /** The window began with an accepted report, unless none are accepted at all. */
  ghost predicate Anchored(limits: Limits, log: seq<Accepted>, r: string, start: Time) {
    limits.perMinute >= 1 ==> exists i :: 0 <= i < |log| && log[i].reporter == r && log[i].ts == start
  }

  ghost predicate Tallies(limits: Limits, w: Rate, log: seq<Accepted>, r: string, now: Time) {
    && w.start <= now
    && (forall i :: 0 <= i < |log| && log[i].reporter == r ==> log[i].ts <= w.start + RATE_WINDOW && log[i].ts <= now)
    && CountFrom(log, r, w.start) <= w.count && CountFrom(log, r, w.start) <= Quota(limits)
    && CountFrom(log, r, w.start - RATE_WINDOW) <= CountFrom(log, r, w.start) + Carry(limits)
  }

  /** What the rate window of a reporter says about its accepted reports: those since the
      window began are within its count and the limit, and only so many came in the minute
      before. */
  ghost predicate WindowKnows(limits: Limits, rate: Option<Rate>, log: seq<Accepted>, r: string, now: Time) {
    match rate
    case None => forall i :: 0 <= i < |log| ==> log[i].reporter != r
    case Some(w) => Tallies(limits, w, log, r, now) && Anchored(limits, log, r, w.start)
  }

  ghost predicate RateKept(limits: Limits, log: seq<Accepted>, r: string) {
    forall lo, hi :: hi <= lo + RATE_WINDOW ==> CountIn(log, r, lo, hi) <= Quota(limits) + Carry(limits)
  }

  lemma {:induction false} AfterAnchor(log: seq<Accepted>, r: string, lo: Time, later: Time, i: nat)
    requires i < |log| && log[i].reporter == r && log[i].ts == lo && lo < later
    ensures CountFrom(log, r, later) <= CountFrom(log, r, lo) - 1
    decreases |log|
  {
    if i < |log| - 1 {
      AfterAnchor(log[..|log| - 1], r, lo, later, i);
    } else {
      CountFromLater(log[..|log| - 1], r, lo, later);
    }
  }

  /** When a window is over, it leaves at most `Carry` reports in its last minute. */
  lemma WindowOver(limits: Limits, w: Rate, log: seq<Accepted>, r: string, now: Time)
    requires Tallies(limits, w, log, r, now) && Anchored(limits, log, r, w.start) && now - w.start > RATE_WINDOW
    ensures CountFrom(log, r, now) == 0 && 0 <= CountFrom(log, r, now - RATE_WINDOW) <= Carry(limits)
  {
    CountFromNone(log, r, now);
    CountFromLater(log, r, w.start, now - RATE_WINDOW);
    if limits.perMinute >= 1 {
      var i :| 0 <= i < |log| && log[i].reporter == r && log[i].ts == w.start;
      AfterAnchor(log, r, w.start, now - RATE_WINDOW, i);
    }
  }

  /** Counting one more report, before it is accepted or refused: there is room for it. */
  lemma CountedKnows(limits: Limits, rate: Option<Rate>, log: seq<Accepted>, r: string, at: Time, now: Time)
    requires WindowKnows(limits, rate, log, r, at) && at <= now
    ensures var w := Counted(rate, now);
            && Tallies(limits, w, log, r, now) && now <= w.start + RATE_WINDOW
            && CountFrom(log, r, w.start) <= w.count - 1
            && (Anchored(limits, log, r, w.start) || w == Rate(now, 1))
  {
    match rate
    case None =>
      CountFromNone(log, r, now);
      CountFromNone(log, r, now - RATE_WINDOW);
    case Some(open) =>
      if now - open.start > RATE_WINDOW {
        WindowOver(limits, open, log, r, now);
      }
  }

  lemma Appended(log: seq<Accepted>, a: Accepted, r: string, lo: Time, hi: Time)
    ensures CountFrom(log + [a], r, lo) == CountFrom(log, r, lo) + (if a.reporter == r && a.ts >= lo then 1 else 0)
    ensures CountIn(log + [a], r, lo, hi)
         == CountIn(log, r, lo, hi) + (if a.reporter == r && lo <= a.ts <= hi then 1 else 0)
  {
    assert (log + [a])[..|log|] == log;
  }

  lemma StillAnchored(limits: Limits, log: seq<Accepted>, a: Accepted, r: string, start: Time)
    requires Anchored(limits, log, r, start) || (a.reporter == r && a.ts == start)
    ensures Anchored(limits, log + [a], r, start)
  {
    if limits.perMinute >= 1 && exists i :: 0 <= i < |log| && log[i].reporter == r && log[i].ts == start {
      var i :| 0 <= i < |log| && log[i].reporter == r && log[i].ts == start;
      assert (log + [a])[i] == log[i];
    } else {
      assert (log + [a])[|log|] == a;
    }
  }

  lemma AcceptedKnows(limits: Limits, w: Rate, log: seq<Accepted>, r: string, ip: string, now: Time)
    requires Tallies(limits, w, log, r, now) && now <= w.start + RATE_WINDOW
    requires CountFrom(log, r, w.start) <= w.count - 1 && w.count <= limits.perMinute
    requires Anchored(limits, log, r, w.start) || w.start == now
    ensures WindowKnows(limits, Some(w), log + [Accepted(r, ip, now)], r, now)
  {
    var a := Accepted(r, ip, now);
    Appended(log, a, r, w.start, now);
    Appended(log, a, r, w.start - RATE_WINDOW, now);
    StillAnchored(limits, log, a, r, w.start);
  }

  lemma AcceptedKeepsRate(limits: Limits, w: Rate, log: seq<Accepted>, r: string, ip: string, now: Time)
    requires Tallies(limits, w, log, r, now) && RateKept(limits, log, r)
    requires CountFrom(log, r, w.start) <= w.count - 1 && w.count <= limits.perMinute
    ensures RateKept(limits, log + [Accepted(r, ip, now)], r)
  {
    var a := Accepted(r, ip, now);
    forall lo: Time, hi: Time | hi <= lo + RATE_WINDOW
      ensures CountIn(log + [a], r, lo, hi) <= Quota(limits) + Carry(limits)
    {
      Appended(log, a, r, lo, hi);
      if lo <= now <= hi {
        CountInFrom(log, r, lo, hi);
        CountFromLater(log, r, w.start - RATE_WINDOW, lo);
      }
    }
  }

  lemma OthersAppended(limits: Limits, rate: Option<Rate>, log: seq<Accepted>, r: string, a: Accepted, at: Time,
                       now: Time)
    requires WindowKnows(limits, rate, log, r, at) && RateKept(limits, log, r) && a.reporter != r && at <= now
    ensures WindowKnows(limits, rate, log + [a], r, now) && RateKept(limits, log + [a], r)
  {
    if rate.Some? {
      Appended(log, a, r, rate.value.start, now);
      Appended(log, a, r, rate.value.start - RATE_WINDOW, now);
      StillAnchored(limits, log, a, r, rate.value.start);
    }
    forall lo: Time, hi: Time | hi <= lo + RATE_WINDOW
      ensures CountIn(log + [a], r, lo, hi) <= Quota(limits) + Carry(limits)
    {
      Appended(log, a, r, lo, hi);
    }
  }

  ghost predicate Fair(limits: Limits, h: History, r: string, now: Time) {
    WindowKnows(limits, Held(h.state.rate, r), h.log, r, now) && RateKept(limits, h.log, r)
  }

  lemma StepFair(limits: Limits, h: History, q: Request, r: string, at: Time)
    requires Fair(limits, h, r, at) && at <= q.now
    ensures Fair(limits, Extended(limits, h, q), r, q.now)
  {
    var reporter := Clip(q.reporter, 64);
    var (s, outcome) := Reported(limits, h.state, q);
    if outcome == BadReport {
    } else if reporter == r {
      var rate := Held(h.state.rate, r);
      CountedKnows(limits, rate, h.log, r, at, q.now);
      if outcome == Stored {
        AcceptedKnows(limits, Counted(rate, q.now), h.log, r, q.ip, q.now);
        AcceptedKeepsRate(limits, Counted(rate, q.now), h.log, r, q.ip, q.now);
      }
    } else if outcome == Stored {
      OthersAppended(limits, Held(h.state.rate, r), h.log, r, Accepted(reporter, q.ip, q.now), at, q.now);
    }
  }

  /** On every run, the accepted reports of a reporter since its window began are within
      the limit L per minute, and any closed 60 seconds hold at most 2 L - 1 (none when L
      is not positive). */
  lemma {:induction false} RateHolds(limits: Limits, qs: seq<Request>, r: string, now: Time)
    requires InOrder(qs) && forall i :: 0 <= i < |qs| ==> qs[i].now <= now
    ensures Fair(limits, Run(limits, qs), r, now)
    decreases |qs|
  {
    if qs != [] {
      var front, q := qs[..|qs| - 1], qs[|qs| - 1];
      RateHolds(limits, front, r, q.now);
      StepFair(limits, Run(limits, front), q, r, q.now);
    }
  }

  /** One more report within the window and the limit is accepted. */
  lemma OneMore(limits: Limits, qs: seq<Request>, r: string, ip: string, now: Time, w: Rate)
    requires r != "" && |r| <= 64 && limits.public(ip)
    requires Held(Run(limits, qs).state.rate, r) == Some(w) && now - w.start <= RATE_WINDOW
    requires w.count + 1 <= limits.perMinute
    ensures var h := Run(limits, qs + [Request(r, ip, "", now)]);
            && Held(h.state.rate, r) == Some(Rate(w.start, w.count + 1))
            && h.log == Run(limits, qs).log + [Accepted(r, ip, now)]
  {
    assert (qs + [Request(r, ip, "", now)])[..|qs|] == qs;
  }

  /** The requests so far end with `count` reports counted in the window that began at
      `start`, and `hits` accepted ones in the interval. */
  ghost predicate Reached(limits: Limits, qs: seq<Request>, r: string, now: Time, w: Rate, lo: Time, hi: Time,
                          hits: int) {
    && InOrder(qs) && (qs != [] ==> qs[|qs| - 1].now <= now)
    && Held(Run(limits, qs).state.rate, r) == Some(w)
    && CountIn(Run(limits, qs).log, r, lo, hi) == hits
  }

  lemma ReachOneMore(limits: Limits, qs: seq<Request>, r: string, ip: string, now: Time, w: Rate, lo: Time, hi: Time,
                     hits: int)
    requires Reached(limits, qs, r, now, w, lo, hi, hits) && r != "" && |r| <= 64 && limits.public(ip)
    requires now - w.start <= RATE_WINDOW && w.count + 1 <= limits.perMinute
    ensures Reached(limits, qs + [Request(r, ip, "", now)], r, now, Rate(w.start, w.count + 1), lo, hi,
                    hits + (if lo <= now <= hi then 1 else 0))
  {
    OneMore(limits, qs, r, ip, now, w);
    Appended(Run(limits, qs).log, Accepted(r, ip, now), r, lo, hi);
  }

  /** `n` reports at one moment, all within the window and the limit, are all accepted. */
  lemma {:induction false} Burst(limits: Limits, qs: seq<Request>, r: string, ip: string, now: Time, n: nat, w: Rate,
                                 lo: Time, hi: Time, hits: int)
    returns (qs': seq<Request>)
    requires Reached(limits, qs, r, now, w, lo, hi, hits) && r != "" && |r| <= 64 && limits.public(ip)
    requires now - w.start <= RATE_WINDOW && w.count + n <= limits.perMinute
    ensures Reached(limits, qs', r, now, Rate(w.start, w.count + n), lo, hi, hits + (if lo <= now <= hi then n else 0))
    decreases n
  {
    if n == 0 {
      qs' := qs;
    } else {
      var before := Burst(limits, qs, r, ip, now, n - 1, w, lo, hi, hits);
      ReachOneMore(limits, before, r, ip, now, Rate(w.start, w.count + n - 1), lo, hi,
                   hits + (if lo <= now <= hi then n - 1 else 0));
      qs' := before + [Request(r, ip, "", now)];
    }
  }

  /** The bound is reached for every positive limit: one report to open the window, the
      rest of the limit at its last moment, and a full window right after. */
  lemma BoundReached(limits: Limits, r: string, ip: string) returns (qs: seq<Request>)
    requires limits.perMinute >= 1 && r != "" && |r| <= 64 && limits.public(ip)
    ensures InOrder(qs) && CountIn(Run(limits, qs).log, r, 60.0, 120.0) == Quota(limits) + Carry(limits)
  {
    var open := [Request(r, ip, "", 0.0)];
    assert open[..0] == [];
    assert Run(limits, []) == History(State(map[], map[]), []);
    Appended([], Accepted(r, ip, 0.0), r, 60.0, 120.0);
    var late := Burst(limits, open, r, ip, 60.0, limits.perMinute - 1, Rate(0.0, 1), 60.0, 120.0, 0);
    var next := late + [Request(r, ip, "", 61.0)];
    assert next[..|next| - 1] == late;
    Appended(Run(limits, late).log, Accepted(r, ip, 61.0), r, 60.0, 120.0);
    qs := Burst(limits, next, r, ip, 61.0, limits.perMinute - 1, Rate(61.0, 1), 60.0, 120.0, limits.perMinute);
  }

  // ---- consensus

  /** The last accepted report of a reporter about an IP. */
  function Latest(log: seq<Accepted>, r: string, ip: string): Option<Time>
    decreases |log|
  {
    if log == [] then None
    else
      var a := log[|log| - 1];
      if a.reporter == r && a.ip == ip then Some(a.ts) else Latest(log[..|log| - 1], r, ip)
  }

  ghost predicate RowsAreLatest(h: History) {
    forall r, ip :: (match Latest(h.log, r, ip)
                     case None => Key(r, ip) !in h.state.rows
                     case Some(ts) => Key(r, ip) in h.state.rows && h.state.rows[Key(r, ip)].ts == ts)
  }

  lemma {:induction false} RowsFollow(limits: Limits, qs: seq<Request>)
    ensures RowsAreLatest(Run(limits, qs))
    decreases |qs|
  {
    if qs != [] {
      var h, q := Run(limits, qs[..|qs| - 1]), qs[|qs| - 1];
      RowsFollow(limits, qs[..|qs| - 1]);
      var h' := Extended(limits, h, q);
      assert h'.log != h.log ==> h'.log[..|h'.log| - 1] == h.log;
    }
  }

  /** An IP is listed exactly when enough distinct reporters, and at least one, have their
      latest accepted report about it within the window of days; it is listed with their
      number. */
  lemma ListedIff(limits: Limits, qs: seq<Request>, ip: string, now: Time, recent: set<string>)
    requires forall r :: r in recent <==>
               var latest := Latest(Run(limits, qs).log, r, ip);
               latest.Some? && latest.value >= now - limits.days as real * 86400.0
    ensures var listed := Listed(limits, Run(limits, qs).state.rows, now);
            && (ip in listed <==> |recent| >= 1 && |recent| >= limits.consensus)
            && (ip in listed ==> listed[ip] == |recent|)
  {
    RowsFollow(limits, qs);
    var since, rows := now - limits.days as real * DAY, Run(limits, qs).state.rows;
    var reporters := Reporters(rows, ip, since);
    forall r ensures r in reporters <==> r in recent {
      var latest := Latest(Run(limits, qs).log, r, ip);
      assert r in reporters <==> Key(r, ip) in rows && rows[Key(r, ip)].ts >= since;
    }
    assert reporters == recent;
    if recent != {} {
      var r :| r in recent;
      assert Key(r, ip) in rows;
    }
  }

  // ---- the service

  // ---- what is accepted

  /** The report names a reporter, and a public address. */
  function Proper(limits: Limits, r: string): Request -> bool {
    (q: Request) => q.reporter != "" && Clip(q.reporter, 64) == r && limits.public(q.ip)
  }

  /** The count of the window that a report falls into, with the report. */
  function InWindow(s: State, r: string, now: Time): int {
    if r in s.rate && now - s.rate[r].start <= 60.0 then s.rate[r].count + 1 else 1
  }

  /** A report without a reporter or about an address that is not public is refused and leaves
      no trace; any other is stored if and only if its window is within the limit. */
  lemma ReportIs(limits: Limits, s: State, q: Request)
    ensures var (s', outcome) := Reported(limits, s, q);
            var r := Clip(q.reporter, 64);
            && (outcome == BadReport <==> q.reporter == "" || !limits.public(q.ip))
            && (outcome == BadReport ==> s' == s)
            && (outcome != BadReport ==>
                  && (outcome == Stored <==> InWindow(s, r, q.now) <= limits.perMinute)
                  && r in s'.rate && s'.rate[r].count == InWindow(s, r, q.now)
                  && s'.rate[r].start
                     == (if r in s.rate && q.now - s.rate[r].start <= 60.0 then s.rate[r].start else q.now))
            && s'.rate - {r} == s.rate - {r}
            && s'.rows == (if outcome == Stored then s.rows[Key(r, q.ip) := Row(Clip(q.rule, 40), q.now)] else s.rows)
  {
  }

  /** Nothing but public addresses, reported under a name, is ever stored or listed. */
  lemma {:induction false} ListedIsPublic(limits: Limits, qs: seq<Request>, now: Time)
    ensures forall k :: k in Run(limits, qs).state.rows ==> k.reporter != "" && limits.public(k.ip)
    ensures forall ip :: ip in Listed(limits, Run(limits, qs).state.rows, now) ==> limits.public(ip)
    decreases |qs|
  {
    if qs != [] {
      ListedIsPublic(limits, qs[..|qs| - 1], now);
    }
  }

  /** The proper reports of a reporter that came at `since` or later. */
  function ProperSince(limits: Limits, r: string, since: Time): Request -> bool {
    (q: Request) => Proper(limits, r)(q) && q.now >= since
  }

  lemma {:induction false} FewerLater(limits: Limits, qs: seq<Request>, r: string, since: Time, later: Time)
    requires since <= later
    ensures CountWhere(qs, ProperSince(limits, r, later)) <= CountWhere(qs, ProperSince(limits, r, since))
    decreases |qs|
  {
    if qs != [] {
      var front, last := qs[..|qs| - 1], qs[|qs| - 1];
      FewerLater(limits, front, r, since, later);
      CountWhereSnoc(front, last, ProperSince(limits, r, since));
      CountWhereSnoc(front, last, ProperSince(limits, r, later));
      assert qs == front + [last];
    }
  }

  /** A window counts no more than the proper reports since it began, and began before now. */
  ghost predicate WindowHolds(limits: Limits, qs: seq<Request>, r: string) {
    var rate := Run(limits, qs).state.rate;
    r in rate ==>
      && rate[r].count <= CountWhere(qs, ProperSince(limits, r, rate[r].start))
      && qs != [] && rate[r].start <= qs[|qs| - 1].now
  }

  lemma WindowAfter(limits: Limits, qs: seq<Request>, q: Request, r: string)
    requires WindowHolds(limits, qs, r) && InOrder(qs + [q])
    ensures WindowHolds(limits, qs + [q], r)
  {
    var s := Run(limits, qs).state;
    var s' := Reported(limits, s, q).0;
    assert (qs + [q])[..|qs|] == qs && Run(limits, qs + [q]).state == s';
    ReportIs(limits, s, q);
    if qs != [] {
      assert (qs + [q])[|qs| - 1] == qs[|qs| - 1] && (qs + [q])[|qs| - 1].now <= (qs + [q])[|qs|].now;
    }
    if r in s'.rate {
      var since := s'.rate[r].start;
      CountWhereSnoc(qs, q, ProperSince(limits, r, since));
      if r != Clip(q.reporter, 64) || Reported(limits, s, q).1 == BadReport {
        assert r in s'.rate - {Clip(q.reporter, 64)} || s' == s;
        assert r in s.rate && s.rate[r] == s'.rate[r];
      } else {
        assert since <= q.now;
        assert Proper(limits, r)(q);
      }
    }
  }

  lemma {:induction false} WindowCounts(limits: Limits, qs: seq<Request>, r: string)
    requires InOrder(qs)
    ensures WindowHolds(limits, qs, r)
    decreases |qs|
  {
    if qs != [] {
      WindowCounts(limits, qs[..|qs| - 1], r);
      WindowAfter(limits, qs[..|qs| - 1], qs[|qs| - 1], r);
      assert qs == qs[..|qs| - 1] + [qs[|qs| - 1]];
    }
  }

  /** On every ordered run a proper report is stored if its reporter sent fewer than the limit
      in the minute before. */
  lemma QuietReporterIsHeard(limits: Limits, qs: seq<Request>, q: Request)
    requires InOrder(qs + [q]) && q.reporter != "" && limits.public(q.ip)
    requires CountWhere(qs, ProperSince(limits, Clip(q.reporter, 64), q.now - 60.0)) < limits.perMinute
    ensures Reported(limits, Run(limits, qs).state, q).1 == Stored
  {
    var r, s := Clip(q.reporter, 64), Run(limits, qs).state;
    assert InOrder(qs) by {
      assert forall i :: 0 <= i < |qs| ==> (qs + [q])[i] == qs[i];
    }
    WindowCounts(limits, qs, r);
    ReportIs(limits, s, q);
    if r in s.rate && q.now - s.rate[r].start <= 60.0 {
      FewerLater(limits, qs, r, q.now - 60.0, s.rate[r].start);
    }
  }

  class Service {
    const limits: Limits
    var rate: map<string, Rate>
    var rows: map<Key, Row>

    constructor (limits: Limits)
      ensures this.limits == limits && rate == map[] && rows == map[]
    {
      this.limits, rate, rows := limits, map[], map[];
    }

    /** `report`: the count goes up even when the report is then refused. */
    method Report(q: Request) returns (outcome: Outcome)
      modifies `rate, `rows
      ensures (State(rate, rows), outcome) == Reported(limits, State(old(rate), old(rows)), q)
    {
      var reporter := Clip(q.reporter, 64);
      if reporter == "" || !limits.public(q.ip) {
        outcome := BadReport;
      } else {
        var win := if reporter in rate then rate[reporter] else Rate(q.now, 0);
        if q.now - win.start > RATE_WINDOW {
          win := Rate(q.now, 0);
        }
        win := win.(count := win.count + 1);
        rate := rate[reporter := win];
        if win.count > limits.perMinute {
          outcome := RateLimited;
        } else {
          rows := rows[Key(reporter, q.ip) := Row(Clip(q.rule, 40), q.now)];
          outcome := Stored;
        }
      }
    }
  }
}
