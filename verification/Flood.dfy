/** The fleet-update campaign over a whole mesh (secwatch/cluster.py): every node handles
    one message, poll or request at a time, messages may be delayed, reordered or lost. */
module Flood {
  import opened Collections
  import opened Campaign

  datatype Msg = Msg(dest: string, ts: int)

  /** What a node did: asked the fleet to update, passed a campaign on, updated itself. */
  datatype Deed = Asked(node: string, ts: int) | PassedOn(node: string, ts: int) | Updated(node: string, ts: int)

  /** Whom each node can push to and poll, and who takes remote updates. */
  datatype Mesh = Mesh(peers: map<string, seq<string>>, allow: set<string>)

  datatype Net = Net(nodes: map<string, Record>, flight: seq<Msg>, deeds: seq<Deed>)

  datatype Act =
    | Request(node: string, ts: int)
    | Deliver(index: nat, ok: bool)
    | Lose(index: nat)
    | Poll(node: string, asked: seq<string>, ok: bool)

  /** The nodes of the mesh are those with a record, and push only to one another. */
  ghost predicate Closed(m: Mesh, s: Net) {
    && m.peers.Keys == s.nodes.Keys
    && (forall n, i :: n in m.peers && 0 <= i < |m.peers[n]| ==> m.peers[n][i] in s.nodes)
    && (forall i :: 0 <= i < |s.flight| ==> s.flight[i].dest in s.nodes)
  }

  function Pushes(m: Mesh, n: string, ts: int): seq<Msg>
    requires n in m.peers
  {
    seq(|m.peers[n]|, i requires 0 <= i < |m.peers[n]| => Msg(m.peers[n][i], ts))
  }

  function Without(flight: seq<Msg>, i: nat): seq<Msg>
    requires i < |flight|
  {
    flight[..i] + flight[i + 1..]
  }

  /** What can happen. A request carries a timestamp no older than the node's own. */
  ghost predicate Legal(m: Mesh, s: Net, a: Act) {
    match a
    case Request(n, ts) => n in s.nodes && ts > 0 && ts >= s.nodes[n].campaign
    case Deliver(i, _) => i < |s.flight|
    case Lose(i) => i < |s.flight|
    case Poll(n, asked, _) => n in s.nodes && forall i :: 0 <= i < |asked| ==> asked[i] in s.nodes
  }

  function Answers(s: Net, asked: seq<string>): seq<int>
    requires forall i :: 0 <= i < |asked| ==> asked[i] in s.nodes
  {
    seq(|asked|, i requires 0 <= i < |asked| => s.nodes[asked[i]].campaign)
  }

  function Noted(n: string, ts: int, started: bool): seq<Deed> {
    if started then [Updated(n, ts)] else []
  }

  ghost function Step(m: Mesh, s: Net, a: Act): Net
    requires Closed(m, s) && Legal(m, s, a)
  {
    match a
    case Request(n, ts) =>
      Net(s.nodes[n := Requested(s.nodes[n], ts)], s.flight + Pushes(m, n, ts), s.deeds + [Asked(n, ts)])
    case Deliver(i, ok) =>
      var Msg(n, ts) := s.flight[i];
      var rest := Without(s.flight, i);
      if ts == 0 then Net(s.nodes, rest, s.deeds)
      else
        var (st, started) := Applied(s.nodes[n], ts, n in m.allow, ok);
        var newer := ts > s.nodes[n].campaign;
        Net(s.nodes[n := st],
            if newer then rest + Pushes(m, n, ts) else rest,
            s.deeds + (if newer then [PassedOn(n, ts)] else []) + Noted(n, ts, started))
    case Lose(i) => s.(flight := Without(s.flight, i))
    case Poll(n, asked, ok) =>
      var (st, started) := Polled(s.nodes[n], Answers(s, asked), n in m.allow, ok);
      Net(s.nodes[n := st], s.flight, s.deeds + Noted(n, Best(Answers(s, asked)), started))
  }

  /** A step stays within the mesh. */
  lemma StepCloses(m: Mesh, s: Net, a: Act)
    requires Closed(m, s) && Legal(m, s, a)
    ensures Closed(m, Step(m, s, a))
  {
  }

  /** A run: each act is legal where it happens. */
  ghost predicate Runs(m: Mesh, s: Net, acts: seq<Act>)
    requires Closed(m, s)
    decreases |acts|
  {
    acts != [] ==> Legal(m, s, acts[0]) && (StepCloses(m, s, acts[0]); Runs(m, Step(m, s, acts[0]), acts[1..]))
  }

  ghost function After(m: Mesh, s: Net, acts: seq<Act>): (r: Net)
    requires Closed(m, s) && Runs(m, s, acts)
    ensures Closed(m, r)
    decreases |acts|
  {
    if acts == [] then s else (StepCloses(m, s, acts[0]); After(m, Step(m, s, acts[0]), acts[1..]))
  }

  // ---- what a node did, in order

  /** What a node asked for or applied is not newer than its `applied_ts`; what it asked
      for or passed on is not newer than its `campaign_ts`. Only willing nodes update. */
  ghost predicate Remembered(m: Mesh, s: Net) {
    forall i :: 0 <= i < |s.deeds| ==>
      match s.deeds[i]
      case Asked(n, ts) => n in s.nodes && ts <= s.nodes[n].applied && ts <= s.nodes[n].campaign
      case PassedOn(n, ts) => n in s.nodes && ts <= s.nodes[n].campaign
      case Updated(n, ts) => n in s.nodes && ts <= s.nodes[n].applied && n in m.allow
  }

  /** A self-update is newer than everything its node asked for or applied before; a
      campaign passed on is newer than everything its node asked for or passed on before. */
  ghost predicate Ascending(deeds: seq<Deed>) {
    forall i, j :: 0 <= i < j < |deeds| && deeds[i].node == deeds[j].node ==>
      && (deeds[j].Updated? && !deeds[i].PassedOn? ==> deeds[i].ts < deeds[j].ts)
      && (deeds[j].PassedOn? && !deeds[i].Updated? ==> deeds[i].ts < deeds[j].ts)
  }

  /** Timestamps never go back. */
  ghost predicate NoOlder(s: Net, s': Net) {
    s.nodes.Keys == s'.nodes.Keys
    && forall n :: n in s.nodes ==>
         s.nodes[n].campaign <= s'.nodes[n].campaign && s.nodes[n].applied <= s'.nodes[n].applied
  }

  lemma StepAdvances(m: Mesh, s: Net, a: Act)
    requires Closed(m, s) && Legal(m, s, a)
    ensures NoOlder(s, Step(m, s, a))
  {
  }

  lemma RequestRemembers(m: Mesh, s: Net, n: string, ts: int)
    requires Closed(m, s) && Legal(m, s, Request(n, ts)) && Remembered(m, s) && Ascending(s.deeds)
    ensures Remembered(m, Step(m, s, Request(n, ts))) && Ascending(Step(m, s, Request(n, ts)).deeds)
  {
  }

  lemma DeliverRemembers(m: Mesh, s: Net, i: nat, ok: bool)
    requires Closed(m, s) && Legal(m, s, Deliver(i, ok)) && Remembered(m, s) && Ascending(s.deeds)
    ensures Remembered(m, Step(m, s, Deliver(i, ok))) && Ascending(Step(m, s, Deliver(i, ok)).deeds)
  {
    var n, ts := s.flight[i].dest, s.flight[i].ts;
    AppliedAdvances(s.nodes[n], ts, n in m.allow, ok);
  }

  lemma PollRemembers(m: Mesh, s: Net, n: string, asked: seq<string>, ok: bool)
    requires Closed(m, s) && Legal(m, s, Poll(n, asked, ok)) && Remembered(m, s) && Ascending(s.deeds)
    ensures Remembered(m, Step(m, s, Poll(n, asked, ok))) && Ascending(Step(m, s, Poll(n, asked, ok)).deeds)
  {
    AppliedAdvances(s.nodes[n], Best(Answers(s, asked)), n in m.allow, ok);
  }

  lemma StepRemembers(m: Mesh, s: Net, a: Act)
    requires Closed(m, s) && Legal(m, s, a) && Remembered(m, s) && Ascending(s.deeds)
    ensures Remembered(m, Step(m, s, a)) && Ascending(Step(m, s, a).deeds)
  {
    match a
    case Request(n, ts) => RequestRemembers(m, s, n, ts);
    case Deliver(i, ok) => DeliverRemembers(m, s, i, ok);
    case Lose(i) =>
    case Poll(n, asked, ok) => PollRemembers(m, s, n, asked, ok);
  }

  /** On every run, with losses and polls: `applied_ts` never decreases; the successful
      self-updates of a node have strictly increasing timestamps, so no campaign is applied
      twice; a node never applies a campaign it asked for (or an older one); a node that
      does not allow remote updates never updates; no node passes a campaign on twice. */
  lemma {:induction false} RunRemembers(m: Mesh, s: Net, acts: seq<Act>)
    requires Closed(m, s) && Runs(m, s, acts) && Remembered(m, s) && Ascending(s.deeds)
    ensures Remembered(m, After(m, s, acts)) && Ascending(After(m, s, acts).deeds)
    ensures NoOlder(s, After(m, s, acts))
    decreases |acts|
  {
    if acts != [] {
      StepRemembers(m, s, acts[0]);
      StepAdvances(m, s, acts[0]);
      RunRemembers(m, Step(m, s, acts[0]), acts[1..]);
    }
  }

  // ---- who updates, and when

  /** What a request does: it is noted, the initiator knows its campaign and never applies it,
      and every peer is sent it once. */
  lemma RequestIs(m: Mesh, s: Net, n: string, ts: int)
    requires Closed(m, s) && Legal(m, s, Request(n, ts))
    ensures var s' := Step(m, s, Request(n, ts));
            && s'.deeds == s.deeds + [Asked(n, ts)]
            && s'.nodes[n].campaign == ts && s'.nodes[n].applied >= ts && s'.nodes[n].applied >= s.nodes[n].applied
            && (s'.nodes[n].applied == ts || s'.nodes[n].applied == s.nodes[n].applied)
            && |s'.flight| == |s.flight| + |m.peers[n]| && s'.flight[..|s.flight|] == s.flight
            && forall k :: 0 <= k < |m.peers[n]| ==> s'.flight[|s.flight| + k] == Msg(m.peers[n][k], ts)
  {
  }

  /** What a delivery does, in terms of the record of its node: the campaign is passed on, to
      every peer once, exactly if it is newer than the campaign known; an update is started
      exactly if it is newer than everything applied, allowed, and succeeds. */
  lemma DeliverIs(m: Mesh, s: Net, i: nat, ok: bool)
    requires Closed(m, s) && Legal(m, s, Deliver(i, ok))
    ensures var n, ts, s' := s.flight[i].dest, s.flight[i].ts, Step(m, s, Deliver(i, ok));
            var news := ts != 0 && ts > s.nodes[n].campaign;
            var updates := ts != 0 && ts > s.nodes[n].applied && n in m.allow && ok;
            && s'.deeds
               == s.deeds + (if news then [PassedOn(n, ts)] else []) + (if updates then [Updated(n, ts)] else [])
            && s'.nodes[n].applied == (if updates then ts else s.nodes[n].applied)
            && |s'.flight| == |s.flight| - 1 + (if news then |m.peers[n]| else 0)
            && (news ==> forall k :: 0 <= k < |m.peers[n]| ==> s'.flight[|s.flight| - 1 + k] == Msg(m.peers[n][k], ts))
  {
    AppliedAdvances(s.nodes[s.flight[i].dest], s.flight[i].ts, s.flight[i].dest in m.allow, ok);
  }

  /** Some node that was asked knows a campaign that is positive and newer than all applied. */
  predicate SomeNewer(s: Net, n: string, asked: seq<string>)
    requires n in s.nodes && forall k :: 0 <= k < |asked| ==> asked[k] in s.nodes
  {
    exists k :: 0 <= k < |asked|
      && s.nodes[asked[k]].campaign > 0 && s.nodes[asked[k]].campaign > s.nodes[n].applied
  }

  /** A poll starts an update exactly if some node that was asked knows a campaign that is
      positive and newer than everything applied here, and updates are allowed and succeed;
      then the newest one that was heard of is applied. */
  lemma PollIs(m: Mesh, s: Net, n: string, asked: seq<string>, ok: bool)
    requires Closed(m, s) && Legal(m, s, Poll(n, asked, ok))
    ensures var s' := Step(m, s, Poll(n, asked, ok));
            if n in m.allow && ok && SomeNewer(s, n, asked) then
              && s'.deeds == s.deeds + [Updated(n, s'.nodes[n].applied)]
              && (exists k :: 0 <= k < |asked| && s.nodes[asked[k]].campaign == s'.nodes[n].applied)
              && (forall k :: 0 <= k < |asked| ==> s.nodes[asked[k]].campaign <= s'.nodes[n].applied)
            else s'.deeds == s.deeds && s'.nodes[n].applied == s.nodes[n].applied
  {
    var answers := Answers(s, asked);
    PollUpdatesIff(s.nodes[n], answers, n in m.allow, ok);
    BestIsMax(answers);
    assert forall k :: 0 <= k < |asked| ==> answers[k] == s.nodes[asked[k]].campaign;
    var best := Best(answers);
    if best > 0 {
      var k :| 0 <= k < |answers| && answers[k] == best;
    }
  }

  /** Every willing node has applied what it knows of. */
  ghost predicate KeepsUp(m: Mesh, s: Net) {
    forall n :: n in s.nodes && n in m.allow ==> s.nodes[n].applied >= s.nodes[n].campaign
  }

  ghost predicate AllSucceed(acts: seq<Act>) {
    forall i :: 0 <= i < |acts| ==> (acts[i].Deliver? || acts[i].Poll?) ==> acts[i].ok
  }

  lemma StepKeepsUp(m: Mesh, s: Net, a: Act)
    requires Closed(m, s) && Legal(m, s, a) && KeepsUp(m, s) && ((a.Deliver? || a.Poll?) ==> a.ok)
    ensures KeepsUp(m, Step(m, s, a))
  {
  }

  /** If no update fails, willing nodes are up to date with what they know, on every run: a
      campaign that is heard of, pushed or polled, is applied at once. */
  lemma {:induction false} RunKeepsUp(m: Mesh, s: Net, acts: seq<Act>)
    requires Closed(m, s) && Runs(m, s, acts) && KeepsUp(m, s) && AllSucceed(acts)
    ensures KeepsUp(m, After(m, s, acts))
    decreases |acts|
  {
    if acts != [] {
      assert acts[0] in acts;
      StepKeepsUp(m, s, acts[0]);
      RunKeepsUp(m, Step(m, s, acts[0]), acts[1..]);
    }
  }

  // ---- the flood ends

  /** The issued campaigns that a node has not heard of. */
  function Unheard(st: Record, issued: set<int>): set<int> {
    set t | t in issued && t > st.campaign
  }

  function UnheardCounts(s: Net, issued: set<int>): map<string, int> {
    map n | n in s.nodes :: |Unheard(s.nodes[n], issued)|
  }

  /** Messages on their way, and for every campaign that a node has yet to hear of the
      messages it may still send. */
  ghost function Fuel(s: Net, issued: set<int>, degree: int): int {
    |s.flight| + (degree + 1) * Sum(UnheardCounts(s, issued))
  }

  ghost predicate Bounded(m: Mesh, s: Net, issued: set<int>, degree: int) {
    && Closed(m, s)
    && (forall n :: n in m.peers ==> |m.peers[n]| <= degree)
    && (forall i :: 0 <= i < |s.flight| ==> s.flight[i].ts in issued)
  }

  lemma UnheardShrinks(st: Record, st': Record, issued: set<int>)
    requires st.campaign <= st'.campaign
    ensures |Unheard(st', issued)| <= |Unheard(st, issued)|
    ensures st'.campaign in issued && st.campaign < st'.campaign ==> |Unheard(st', issued)| < |Unheard(st, issued)|
  {
    var a, b := Unheard(st', issued), Unheard(st, issued);
    assert a <= b && b == a + (b - a);
    if st'.campaign in issued && st.campaign < st'.campaign {
      assert st'.campaign in b - a;
    }
  }

  lemma SumOfOneNode(s: Net, n: string, st: Record, issued: set<int>, flight: seq<Msg>, deeds: seq<Deed>)
    requires n in s.nodes
    ensures Sum(UnheardCounts(Net(s.nodes[n := st], flight, deeds), issued))
         == Sum(UnheardCounts(s, issued)) - |Unheard(s.nodes[n], issued)| + |Unheard(st, issued)|
  {
    var counts := UnheardCounts(s, issued);
    SumReplaced(counts, n, |Unheard(st, issued)|);
    assert UnheardCounts(Net(s.nodes[n := st], flight, deeds), issued) == counts[n := |Unheard(st, issued)|];
  }

  lemma FuelIsNatural(s: Net, issued: set<int>, degree: int)
    requires degree >= 0
    ensures Fuel(s, issued, degree) >= |s.flight| >= 0
  {
    SumNonNegative(UnheardCounts(s, issued));
  }

  lemma Product(x: int, y: int)
    requires x >= 0 && y >= 0
    ensures x * y >= 0
  {
  }

  lemma BurnCount(before: int, after: int, degree: int)
    requires after <= before && degree >= 0
    ensures (degree + 1) * after <= (degree + 1) * before
    ensures after < before ==> (degree + 1) * after + degree + 1 <= (degree + 1) * before
  {
    var d := before - after;
    assert (degree + 1) * before == (degree + 1) * after + (degree + 1) * d;
    Product(degree + 1, d);
    if d > 0 {
      Product(degree + 1, d - 1);
      assert (degree + 1) * d == (degree + 1) * (d - 1) + (degree + 1);
    }
  }

  predicate IsNews(s: Net, i: nat)
    requires i < |s.flight| && s.flight[i].dest in s.nodes
  {
    s.flight[i].ts != 0 && s.flight[i].ts > s.nodes[s.flight[i].dest].campaign
  }

  lemma DeliverFlight(m: Mesh, s: Net, i: nat, ok: bool, issued: set<int>, degree: int)
    requires Bounded(m, s, issued, degree) && Legal(m, s, Deliver(i, ok)) && degree >= 0
    ensures Bounded(m, Step(m, s, Deliver(i, ok)), issued, degree)
    ensures |Step(m, s, Deliver(i, ok)).flight| <= |s.flight| - 1 + (if IsNews(s, i) then degree else 0)
  {
  }

  lemma DeliverUnheard(m: Mesh, s: Net, i: nat, ok: bool, issued: set<int>, degree: int)
    requires Bounded(m, s, issued, degree) && Legal(m, s, Deliver(i, ok))
    ensures var s' := Step(m, s, Deliver(i, ok));
            && Sum(UnheardCounts(s', issued)) <= Sum(UnheardCounts(s, issued))
            && (IsNews(s, i) ==> Sum(UnheardCounts(s', issued)) < Sum(UnheardCounts(s, issued)))
  {
    var n, ts := s.flight[i].dest, s.flight[i].ts;
    if ts != 0 {
      var st := Applied(s.nodes[n], ts, n in m.allow, ok).0;
      var s' := Step(m, s, Deliver(i, ok));
      AppliedAdvances(s.nodes[n], ts, n in m.allow, ok);
      UnheardShrinks(s.nodes[n], st, issued);
      SumOfOneNode(s, n, st, issued, s'.flight, s'.deeds);
    }
  }

  /** Every delivery burns fuel, whether the campaign is news to the node or not. */
  lemma DeliverBurns(m: Mesh, s: Net, i: nat, ok: bool, issued: set<int>, degree: int)
    requires Bounded(m, s, issued, degree) && Legal(m, s, Deliver(i, ok)) && degree >= 0
    ensures Bounded(m, Step(m, s, Deliver(i, ok)), issued, degree)
    ensures Fuel(Step(m, s, Deliver(i, ok)), issued, degree) < Fuel(s, issued, degree)
  {
    DeliverFlight(m, s, i, ok, issued, degree);
    DeliverUnheard(m, s, i, ok, issued, degree);
    BurnCount(Sum(UnheardCounts(s, issued)), Sum(UnheardCounts(Step(m, s, Deliver(i, ok)), issued)), degree);
  }

  lemma LoseBurns(m: Mesh, s: Net, i: nat, issued: set<int>, degree: int)
    requires Bounded(m, s, issued, degree) && Legal(m, s, Lose(i))
    ensures Bounded(m, Step(m, s, Lose(i)), issued, degree)
    ensures Fuel(Step(m, s, Lose(i)), issued, degree) < Fuel(s, issued, degree)
  {
    assert UnheardCounts(Step(m, s, Lose(i)), issued) == UnheardCounts(s, issued);
  }

  lemma PollBurnsNothing(m: Mesh, s: Net, n: string, asked: seq<string>, ok: bool, issued: set<int>, degree: int)
    requires Bounded(m, s, issued, degree) && Legal(m, s, Poll(n, asked, ok)) && degree >= 0
    ensures Bounded(m, Step(m, s, Poll(n, asked, ok)), issued, degree)
    ensures Fuel(Step(m, s, Poll(n, asked, ok)), issued, degree) <= Fuel(s, issued, degree)
  {
    var s' := Step(m, s, Poll(n, asked, ok));
    UnheardShrinks(s.nodes[n], s'.nodes[n], issued);
    SumOfOneNode(s, n, s'.nodes[n], issued, s'.flight, s'.deeds);
    BurnCount(Sum(UnheardCounts(s, issued)), Sum(UnheardCounts(s', issued)), degree);
  }

  function Deliveries(acts: seq<Act>): nat {
    if acts == [] then 0 else (if acts[0].Deliver? then 1 else 0) + Deliveries(acts[1..])
  }

  /** Once requests stop, the flood ends: any run has at most `Fuel` deliveries. */
  lemma {:induction false} FloodEnds(m: Mesh, s: Net, acts: seq<Act>, issued: set<int>, degree: int)
    requires Closed(m, s) && Runs(m, s, acts) && Bounded(m, s, issued, degree) && degree >= 0
    requires forall i :: 0 <= i < |acts| ==> !acts[i].Request?
    ensures Deliveries(acts) + Fuel(After(m, s, acts), issued, degree) <= Fuel(s, issued, degree)
    ensures Deliveries(acts) <= Fuel(s, issued, degree)
    decreases |acts|
  {
    FuelIsNatural(s, issued, degree);
    if acts != [] {
      match acts[0] {
        case Request(_, _) =>
        case Deliver(i, ok) => DeliverBurns(m, s, i, ok, issued, degree);
        case Lose(i) => LoseBurns(m, s, i, issued, degree);
        case Poll(n, asked, ok) => PollBurnsNothing(m, s, n, asked, ok, issued, degree);
      }
      FloodEnds(m, Step(m, s, acts[0]), acts[1..], issued, degree);
      FuelIsNatural(After(m, s, acts), issued, degree);
    }
  }

  // ---- the flood covers

  predicate Carries(flight: seq<Msg>, v: string, ts: int) {
    exists i :: 0 <= i < |flight| && flight[i].dest == v && flight[i].ts >= ts
  }

  /** Along every edge the campaign has arrived or is on its way. */
  ghost predicate Covered(m: Mesh, s: Net)
    requires Closed(m, s)
  {
    forall u, k :: u in m.peers && 0 <= k < |m.peers[u]| ==> EdgeCovered(s, u, m.peers[u][k])
  }

  predicate EdgeCovered(s: Net, u: string, v: string)
    requires u in s.nodes && v in s.nodes
  {
    s.nodes[v].campaign >= s.nodes[u].campaign || Carries(s.flight, v, s.nodes[u].campaign)
  }

  lemma CarriesMore(flight: seq<Msg>, more: seq<Msg>, v: string, ts: int)
    requires Carries(flight, v, ts) || Carries(more, v, ts)
    ensures Carries(flight + more, v, ts)
  {
    if Carries(flight, v, ts) {
      var i :| 0 <= i < |flight| && flight[i].dest == v && flight[i].ts >= ts;
      assert (flight + more)[i] == flight[i];
    } else {
      var i :| 0 <= i < |more| && more[i].dest == v && more[i].ts >= ts;
      assert (flight + more)[|flight| + i] == more[i];
    }
  }

  lemma CarriesWithout(flight: seq<Msg>, i: nat, v: string, ts: int)
    requires i < |flight| && Carries(flight, v, ts)
    ensures Carries(Without(flight, i), v, ts) || (flight[i].dest == v && flight[i].ts >= ts)
  {
    var j :| 0 <= j < |flight| && flight[j].dest == v && flight[j].ts >= ts;
    if j < i {
      assert Without(flight, i)[j] == flight[j];
    } else if j > i {
      assert Without(flight, i)[j - 1] == flight[j];
    }
  }

  lemma PushesCarry(m: Mesh, u: string, ts: int, k: nat)
    requires u in m.peers && k < |m.peers[u]|
    ensures Carries(Pushes(m, u, ts), m.peers[u][k], ts)
  {
    assert Pushes(m, u, ts)[k] == Msg(m.peers[u][k], ts);
  }

  lemma RequestCovers(m: Mesh, s: Net, n: string, ts: int)
    requires Closed(m, s) && Legal(m, s, Request(n, ts)) && Covered(m, s)
    ensures Covered(m, Step(m, s, Request(n, ts)))
  {
    var s' := Step(m, s, Request(n, ts));
    forall u, k | u in m.peers && 0 <= k < |m.peers[u]|
      ensures EdgeCovered(s', u, m.peers[u][k])
    {
      var v := m.peers[u][k];
      assert EdgeCovered(s, u, v);
      if u == n {
        PushesCarry(m, n, ts, k);
        CarriesMore(s.flight, Pushes(m, n, ts), v, ts);
      } else if s.nodes[v].campaign < s.nodes[u].campaign {
        CarriesMore(s.flight, Pushes(m, n, ts), v, s.nodes[u].campaign);
      }
    }
  }

  lemma DeliverCoversEdge(m: Mesh, s: Net, i: nat, ok: bool, u: string, k: nat)
    requires Closed(m, s) && Legal(m, s, Deliver(i, ok)) && s.flight[i].ts != 0
    requires u in m.peers && k < |m.peers[u]| && EdgeCovered(s, u, m.peers[u][k])
    ensures EdgeCovered(Step(m, s, Deliver(i, ok)), u, m.peers[u][k])
  {
    var s', v := Step(m, s, Deliver(i, ok)), m.peers[u][k];
    var n, ts, rest := s.flight[i].dest, s.flight[i].ts, Without(s.flight, i);
    AppliedAdvances(s.nodes[n], ts, n in m.allow, ok);
    if u == n && ts > s.nodes[n].campaign {
      PushesCarry(m, n, ts, k);
      CarriesMore(rest, Pushes(m, n, ts), v, ts);
    } else if s.nodes[v].campaign < s.nodes[u].campaign {
      CarriesWithout(s.flight, i, v, s.nodes[u].campaign);
      if Carries(rest, v, s.nodes[u].campaign) && ts > s.nodes[n].campaign {
        CarriesMore(rest, Pushes(m, n, ts), v, s.nodes[u].campaign);
      }
    }
  }

  lemma StepCovers(m: Mesh, s: Net, a: Act)
    requires Closed(m, s) && Legal(m, s, a) && Covered(m, s) && (a.Request? || a.Deliver?)
    requires forall i :: 0 <= i < |s.flight| ==> s.flight[i].ts != 0
    ensures Covered(m, Step(m, s, a))
    ensures forall i :: 0 <= i < |Step(m, s, a).flight| ==> Step(m, s, a).flight[i].ts != 0
  {
    match a
    case Request(n, ts) => RequestCovers(m, s, n, ts);
    case Deliver(i, ok) =>
      forall u, k | u in m.peers && 0 <= k < |m.peers[u]|
        ensures EdgeCovered(Step(m, s, a), u, m.peers[u][k])
      {
        DeliverCoversEdge(m, s, i, ok, u, k);
      }
  }

  /** Without losses and polls every run keeps every edge covered. */
  lemma {:induction false} RunCovers(m: Mesh, s: Net, acts: seq<Act>)
    requires Closed(m, s) && Runs(m, s, acts) && Covered(m, s)
    requires forall i :: 0 <= i < |acts| ==> acts[i].Request? || acts[i].Deliver?
    requires forall i :: 0 <= i < |s.flight| ==> s.flight[i].ts != 0
    ensures Covered(m, After(m, s, acts))
    decreases |acts|
  {
    if acts != [] {
      StepCovers(m, s, acts[0]);
      RunCovers(m, Step(m, s, acts[0]), acts[1..]);
    }
  }

  /** A path of push edges. */
  ghost predicate Path(m: Mesh, path: seq<string>) {
    |path| > 0 && path[0] in m.peers
    && (|path| > 1 ==> path[1] in m.peers[path[0]] && Path(m, path[1..]))
  }

  lemma {:induction false} QuietPath(m: Mesh, s: Net, path: seq<string>)
    requires Closed(m, s) && Covered(m, s) && s.flight == [] && Path(m, path)
    ensures path[0] in s.nodes && path[|path| - 1] in s.nodes
    ensures s.nodes[path[|path| - 1]].campaign >= s.nodes[path[0]].campaign
  {
    if |path| > 1 {
      QuietPath(m, s, path[1..]);
      var k :| 0 <= k < |m.peers[path[0]]| && m.peers[path[0]][k] == path[1];
      assert EdgeCovered(s, path[0], path[1]);
    }
  }

  /** Without losses and polls, when no message is left, every node that the initiator can
      reach knows the campaign; a mesh where nothing is known is one place to start. */
  lemma FloodReachesAll(m: Mesh, s: Net, acts: seq<Act>, path: seq<string>, ts: int)
    requires Closed(m, s) && Runs(m, s, acts) && Covered(m, s) && Remembered(m, s) && Ascending(s.deeds)
    requires forall i :: 0 <= i < |s.flight| ==> s.flight[i].ts != 0
    requires forall i :: 0 <= i < |acts| ==> acts[i].Request? || acts[i].Deliver?
    requires After(m, s, acts).flight == []
    requires Path(m, path) && Asked(path[0], ts) in After(m, s, acts).deeds
    ensures path[|path| - 1] in After(m, s, acts).nodes
    ensures After(m, s, acts).nodes[path[|path| - 1]].campaign >= ts
  {
    RunCovers(m, s, acts);
    RunRemembers(m, s, acts);
    QuietPath(m, After(m, s, acts), path);
  }

  /** Then every willing node on a push path from the initiator has applied the campaign, if
      no update fails. */
  lemma FloodUpdatesAll(m: Mesh, s: Net, acts: seq<Act>, path: seq<string>, ts: int)
    requires Closed(m, s) && Runs(m, s, acts) && Covered(m, s) && Remembered(m, s) && Ascending(s.deeds)
    requires forall i :: 0 <= i < |s.flight| ==> s.flight[i].ts != 0
    requires forall i :: 0 <= i < |acts| ==> acts[i].Request? || acts[i].Deliver?
    requires After(m, s, acts).flight == [] && KeepsUp(m, s) && AllSucceed(acts)
    requires Path(m, path) && Asked(path[0], ts) in After(m, s, acts).deeds && path[|path| - 1] in m.allow
    ensures path[|path| - 1] in After(m, s, acts).nodes
    ensures After(m, s, acts).nodes[path[|path| - 1]].applied >= ts
  {
    FloodReachesAll(m, s, acts, path, ts);
    RunKeepsUp(m, s, acts);
  }

  /** Before the first request everything that a run needs to start from holds. */
  lemma UntoldIsCovered(m: Mesh, s: Net)
    requires Closed(m, s) && s.flight == [] && s.deeds == [] && forall n :: n in s.nodes ==> s.nodes[n] == UNTOLD
    ensures Covered(m, s) && Remembered(m, s) && Ascending(s.deeds) && KeepsUp(m, s)
  {
  }

  // ---- polling covers too, losses or not

  /** The acts contain, in order, a poll along every edge of the path. */
  ghost predicate PollsAlong(acts: seq<Act>, path: seq<string>)
    requires |path| > 0
    decreases |acts|
  {
    |path| == 1
    || (acts != [] &&
          (PollsAlong(acts[1..], path)
           || (acts[0].Poll? && acts[0].node == path[1] && path[0] in acts[0].asked
               && PollsAlong(acts[1..], path[1..]))))
  }

  /** Whatever else happens, polls along a path carry a campaign from its start to its end. */
  lemma {:induction false} PollsCarry(m: Mesh, s: Net, acts: seq<Act>, path: seq<string>)
    requires Closed(m, s) && Runs(m, s, acts) && |path| > 0 && path[0] in s.nodes
    requires forall n :: n in s.nodes ==> s.nodes[n].campaign >= 0
    requires PollsAlong(acts, path)
    ensures path[|path| - 1] in After(m, s, acts).nodes
    ensures After(m, s, acts).nodes[path[|path| - 1]].campaign >= s.nodes[path[0]].campaign
    decreases |acts|
  {
    if |path| == 1 {
      RunAdvances(m, s, acts);
    } else {
      var s' := Step(m, s, acts[0]);
      StepAdvances(m, s, acts[0]);
      if PollsAlong(acts[1..], path) {
        PollsCarry(m, s', acts[1..], path);
      } else {
        PollHears(m, s, acts[0].node, acts[0].asked, acts[0].ok, path[0]);
        PollsCarry(m, s', acts[1..], path[1..]);
      }
    }
  }

  /** And if no update fails, a willing node at the end of the path has applied it. */
  lemma PollsUpdate(m: Mesh, s: Net, acts: seq<Act>, path: seq<string>)
    requires Closed(m, s) && Runs(m, s, acts) && |path| > 0 && path[0] in s.nodes
    requires forall n :: n in s.nodes ==> s.nodes[n].campaign >= 0
    requires PollsAlong(acts, path) && KeepsUp(m, s) && AllSucceed(acts) && path[|path| - 1] in m.allow
    ensures path[|path| - 1] in After(m, s, acts).nodes
    ensures After(m, s, acts).nodes[path[|path| - 1]].applied >= s.nodes[path[0]].campaign
  {
    PollsCarry(m, s, acts, path);
    RunKeepsUp(m, s, acts);
  }

  lemma PollHears(m: Mesh, s: Net, n: string, asked: seq<string>, ok: bool, p: string)
    requires Closed(m, s) && Legal(m, s, Poll(n, asked, ok)) && p in asked
    requires s.nodes[n].campaign >= 0
    ensures Step(m, s, Poll(n, asked, ok)).nodes[n].campaign >= s.nodes[p].campaign
  {
    PolledIsMax(s.nodes[n], Answers(s, asked), n in m.allow, ok);
    var i :| 0 <= i < |asked| && asked[i] == p;
    assert Answers(s, asked)[i] == s.nodes[p].campaign;
  }

  lemma {:induction false} RunAdvances(m: Mesh, s: Net, acts: seq<Act>)
    requires Closed(m, s) && Runs(m, s, acts)
    ensures NoOlder(s, After(m, s, acts))
    decreases |acts|
  {
    if acts != [] {
      StepAdvances(m, s, acts[0]);
      RunAdvances(m, Step(m, s, acts[0]), acts[1..]);
    }
  }
}
