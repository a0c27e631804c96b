/** The traffic counters of the detection engine (secwatch/detect.py): per-minute and
    per-minute-and-IP buffers in memory, added to two tables at every flush. A table is
    held column by column, each column a map from the primary key. */
module Traffic {
  import opened Collections
  import opened Windows
  import opened Detect

  /** `traffic_buf` and `ip_buf`, or the tables `traffic` and `ip_minute`. */
  datatype Tallies = Tallies(
    requests: map<int, int>, s4xx: map<int, int>, s5xx: map<int, int>,
    ipRequests: map<(int, string), int>, ipS4xx: map<(int, string), int>)

  const NO_TALLIES := Tallies(map[], map[], map[], map[], map[])

  function Minute(at: Time): int { (at / 60.0).Floor }

  function One(b: bool): int { if b then 1 else 0 }

  predicate IsFailure(status: int) { status >= 500 }

  /** `m[k] += n` of a defaultdict. */
  function Bumped<K>(m: map<K, int>, k: K, n: int): map<K, int> {
    m[k := Get(m, k, 0) + n]
  }

  /** What `feed` adds to the buffers. */
  function Tallied(b: Tallies, o: Sighting): Tallies {
    var m := Minute(o.at);
    var key := (m, o.rec.ip);
    Tallies(Bumped(b.requests, m, 1),
            Bumped(b.s4xx, m, One(IsError(o.rec.status))),
            Bumped(b.s5xx, m, One(IsFailure(o.rec.status))),
            Bumped(b.ipRequests, key, 1),
            Bumped(b.ipS4xx, key, One(IsError(o.rec.status))))
  }

  /** The upserts of a flush: every buffered row is added to the table's. */
  function Merged(t: Tallies, b: Tallies): Tallies {
    Tallies(Added(t.requests, b.requests), Added(t.s4xx, b.s4xx), Added(t.s5xx, b.s5xx),
            Added(t.ipRequests, b.ipRequests), Added(t.ipS4xx, b.ipS4xx))
  }

  // ---- what the history says

  /** A column of the traffic table, or one of the per-IP table for an IP. */
  datatype Column = AllRequests | AllErrors | AllFailures | IpRequests(ip: string) | IpErrors(ip: string)

  predicate Counts(c: Column, rec: Record) {
    match c
    case AllRequests => true
    case AllErrors => IsError(rec.status)
    case AllFailures => IsFailure(rec.status)
    case IpRequests(ip) => rec.ip == ip
    case IpErrors(ip) => rec.ip == ip && IsError(rec.status)
  }

  /** How many records of a minute a column has to count. */
  function MinuteOf(h: seq<Sighting>, c: Column, m: int): int {
    if h == [] then 0
    else
      var last := h[|h| - 1];
      MinuteOf(h[..|h| - 1], c, m) + One(Minute(last.at) == m && Counts(c, last.rec))
  }

  function Cell(t: Tallies, c: Column, m: int): int {
    match c
    case AllRequests => Get(t.requests, m, 0)
    case AllErrors => Get(t.s4xx, m, 0)
    case AllFailures => Get(t.s5xx, m, 0)
    case IpRequests(ip) => Get(t.ipRequests, (m, ip), 0)
    case IpErrors(ip) => Get(t.ipS4xx, (m, ip), 0)
  }

  /** Table plus buffer is the history, in every column and minute. */
  ghost predicate Accounted(t: Tallies, b: Tallies, h: seq<Sighting>) {
    forall c, m {:trigger MinuteOf(h, c, m)} :: Cell(t, c, m) + Cell(b, c, m) == MinuteOf(h, c, m)
  }

  lemma CellTallied(b: Tallies, o: Sighting, c: Column, m: int)
    ensures Cell(Tallied(b, o), c, m) == Cell(b, c, m) + One(Minute(o.at) == m && Counts(c, o.rec))
  {
  }

  lemma CellMerged(t: Tallies, b: Tallies, c: Column, m: int)
    ensures Cell(Merged(t, b), c, m) == Cell(t, c, m) + Cell(b, c, m)
  {
    match c
    case AllRequests =>
    case AllErrors =>
    case AllFailures =>
    case IpRequests(ip) =>
    case IpErrors(ip) =>
  }

  lemma CellFlushed(t: Tallies, b: Tallies, c: Column, m: int)
    ensures Cell(Merged(t, b), c, m) + Cell(NO_TALLIES, c, m) == Cell(t, c, m) + Cell(b, c, m)
  {
    CellMerged(t, b, c, m);
  }

  lemma MinuteAfter(h: seq<Sighting>, o: Sighting, c: Column, m: int)
    ensures MinuteOf(h + [o], c, m) == MinuteOf(h, c, m) + One(Minute(o.at) == m && Counts(c, o.rec))
  {
    assert (h + [o])[..|h|] == h;
  }

  lemma FeedAccounts(t: Tallies, b: Tallies, h: seq<Sighting>, o: Sighting)
    requires Accounted(t, b, h)
    ensures Accounted(t, Tallied(b, o), h + [o])
  {
    forall c, m
      ensures Cell(t, c, m) + Cell(Tallied(b, o), c, m) == MinuteOf(h + [o], c, m)
    {
      CellTallied(b, o, c, m);
      MinuteAfter(h, o, c, m);
    }
  }

  lemma FlushAccounts(t: Tallies, b: Tallies, h: seq<Sighting>)
    requires Accounted(t, b, h)
    ensures Accounted(Merged(t, b), NO_TALLIES, h)
  {
    forall c, m
      ensures Cell(Merged(t, b), c, m) + Cell(NO_TALLIES, c, m) == MinuteOf(h, c, m)
    {
      CellFlushed(t, b, c, m);
    }
  }

  // ---- what the columns count, spelled out

  predicate InColumn(c: Column, rec: Record) {
    match c
    case AllRequests => true
    case AllErrors => 400 <= rec.status && rec.status <= 499
    case AllFailures => 500 <= rec.status
    case IpRequests(ip) => rec.ip == ip
    case IpErrors(ip) => rec.ip == ip && 400 <= rec.status && rec.status <= 499
  }

  /** The record belongs to the column and came in the sixty seconds of the minute. */
  function InMinute(c: Column, m: int): Sighting -> bool {
    (o: Sighting) => 60.0 * m as real <= o.at < 60.0 * (m + 1) as real && InColumn(c, o.rec)
  }

  lemma MinuteIs(at: Time, m: int)
    ensures Minute(at) == m <==> 60.0 * m as real <= at < 60.0 * (m + 1) as real
  {
    var q := at / 60.0;
    assert q * 60.0 == at;
    assert q.Floor as real <= q < (q.Floor + 1) as real;
    if 60.0 * m as real <= at < 60.0 * (m + 1) as real {
      assert m as real <= q < (m + 1) as real;
    }
  }

  /** A column has to count, for a minute, the number of its records of that minute. */
  lemma {:induction false} MinuteOfIs(h: seq<Sighting>, c: Column, m: int)
    ensures MinuteOf(h, c, m) == CountWhere(h, InMinute(c, m))
    decreases |h|
  {
    if h != [] {
      var front, last := h[..|h| - 1], h[|h| - 1];
      MinuteOfIs(front, c, m);
      MinuteIs(last.at, m);
      CountWhereSnoc(front, last, InMinute(c, m));
      assert h == front + [last];
    }
  }

  // ---- sums over the tables

  /** The per-IP rows of one minute, or those of one IP. */
  datatype Part = AtMinute(minute: int) | OfIp(ip: string)

  predicate Takes(p: Part, key: (int, string)) {
    match p
    case AtMinute(m) => key.0 == m
    case OfIp(ip) => key.1 == ip
  }

  function Share(column: map<(int, string), int>, p: Part): map<(int, string), int> {
    map k | k in column && Takes(p, k) :: column[k]
  }

  /** A column summed over all minutes. */
  ghost function Total(t: Tallies, c: Column): int {
    match c
    case AllRequests => Sum(t.requests)
    case AllErrors => Sum(t.s4xx)
    case AllFailures => Sum(t.s5xx)
    case IpRequests(ip) => Sum(Share(t.ipRequests, OfIp(ip)))
    case IpErrors(ip) => Sum(Share(t.ipS4xx, OfIp(ip)))
  }

  /** Every traffic row is the sum of its minute's per-IP rows, and counts no request
      both as a client and as a server error. */
  ghost predicate Balanced(t: Tallies) {
    forall m :: BalancedAt(t, m)
  }

  ghost predicate BalancedAt(t: Tallies, m: int) {
    var requests, s4xx, s5xx := Cell(t, AllRequests, m), Cell(t, AllErrors, m), Cell(t, AllFailures, m);
    && Sum(Share(t.ipRequests, AtMinute(m))) == requests
    && Sum(Share(t.ipS4xx, AtMinute(m))) == s4xx
    && 0 <= s4xx && 0 <= s5xx && s4xx + s5xx <= requests
  }

  lemma ShareBumped(column: map<(int, string), int>, p: Part, key: (int, string), n: int)
    ensures Sum(Share(Bumped(column, key, n), p)) == Sum(Share(column, p)) + (if Takes(p, key) then n else 0)
  {
    var share := Share(column, p);
    if Takes(p, key) {
      SumBump(share, key, n);
      assert Share(Bumped(column, key, n), p) == Bumped(share, key, n);
    } else {
      assert Share(Bumped(column, key, n), p) == share;
    }
  }

  lemma ShareAdded(a: map<(int, string), int>, b: map<(int, string), int>, p: Part)
    ensures Sum(Share(Added(a, b), p)) == Sum(Share(a, p)) + Sum(Share(b, p))
  {
    SumAdded(Share(a, p), Share(b, p));
    SharesAdded(a, b, p);
  }

  lemma SharesAdded(a: map<(int, string), int>, b: map<(int, string), int>, p: Part)
    ensures Share(Added(a, b), p) == Added(Share(a, p), Share(b, p))
  {
    var l, r := Share(Added(a, b), p), Added(Share(a, p), Share(b, p));
    forall k
      ensures k in l <==> k in r
      ensures k in l ==> l[k] == r[k]
    {
    }
  }

  lemma TotalTallied(b: Tallies, o: Sighting, c: Column)
    ensures Total(Tallied(b, o), c) == Total(b, c) + One(Counts(c, o.rec))
  {
    var m, error := Minute(o.at), One(IsError(o.rec.status));
    match c
    case AllRequests => SumBump(b.requests, m, 1);
    case AllErrors => SumBump(b.s4xx, m, error);
    case AllFailures => SumBump(b.s5xx, m, One(IsFailure(o.rec.status)));
    case IpRequests(ip) => ShareBumped(b.ipRequests, OfIp(ip), (m, o.rec.ip), 1);
    case IpErrors(ip) => ShareBumped(b.ipS4xx, OfIp(ip), (m, o.rec.ip), error);
  }

  lemma TotalMerged(t: Tallies, b: Tallies, c: Column)
    ensures Total(Merged(t, b), c) == Total(t, c) + Total(b, c)
  {
    match c
    case AllRequests => SumAdded(t.requests, b.requests);
    case AllErrors => SumAdded(t.s4xx, b.s4xx);
    case AllFailures => SumAdded(t.s5xx, b.s5xx);
    case IpRequests(ip) => ShareAdded(t.ipRequests, b.ipRequests, OfIp(ip));
    case IpErrors(ip) => ShareAdded(t.ipS4xx, b.ipS4xx, OfIp(ip));
  }

  lemma TotalNone(c: Column)
    ensures Total(NO_TALLIES, c) == 0
  {
    if c.IpRequests? || c.IpErrors? {
      assert Share(map[], OfIp(c.ip)) == map[];
    }
  }

  lemma FeedBalances(b: Tallies, o: Sighting)
    requires Balanced(b)
    ensures Balanced(Tallied(b, o))
  {
    forall m
      ensures BalancedAt(Tallied(b, o), m)
    {
      assert BalancedAt(b, m);
      FeedBalancesAt(b, o, m);
    }
  }

  lemma FeedBalancesAt(b: Tallies, o: Sighting, m: int)
    requires BalancedAt(b, m)
    ensures BalancedAt(Tallied(b, o), m)
  {
    var key := (Minute(o.at), o.rec.ip);
    ShareBumped(b.ipRequests, AtMinute(m), key, 1);
    ShareBumped(b.ipS4xx, AtMinute(m), key, One(IsError(o.rec.status)));
    CellTallied(b, o, AllRequests, m);
    CellTallied(b, o, AllErrors, m);
    CellTallied(b, o, AllFailures, m);
  }

  lemma FlushBalances(t: Tallies, b: Tallies)
    requires Balanced(t) && Balanced(b)
    ensures Balanced(Merged(t, b))
  {
    forall m
      ensures BalancedAt(Merged(t, b), m)
    {
      assert BalancedAt(t, m) && BalancedAt(b, m);
      FlushBalancesAt(t, b, m);
    }
  }

  lemma FlushBalancesAt(t: Tallies, b: Tallies, m: int)
    requires BalancedAt(t, m) && BalancedAt(b, m)
    ensures BalancedAt(Merged(t, b), m)
  {
    ShareAdded(t.ipRequests, b.ipRequests, AtMinute(m));
    ShareAdded(t.ipS4xx, b.ipS4xx, AtMinute(m));
    CellMerged(t, b, AllRequests, m);
    CellMerged(t, b, AllErrors, m);
    CellMerged(t, b, AllFailures, m);
  }

  lemma NoneBalanced()
    ensures Balanced(NO_TALLIES)
  {
    forall m
      ensures BalancedAt(NO_TALLIES, m)
    {
      assert Share(NO_TALLIES.ipRequests, AtMinute(m)) == map[];
    }
  }
}
