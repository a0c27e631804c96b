/** Roster gossip between nodes, and the roster of one node as an object. */
module RosterGossip {
  import opened Collections
  import opened Windows
  import opened Roster

  /** The rosters of all nodes, by node name. */
  type Rosters = map<string, seq<Peer>>

  /** The peers that can be read from or pushed to. */
  function Queryable(roster: seq<Peer>): seq<Peer>
    decreases |roster|
  {
    if roster == [] then []
    else
      var last := roster[|roster| - 1];
      Queryable(roster[..|roster| - 1]) + (if last.role != "leaf" && last.url != "" then [last] else [])
  }

  lemma {:induction false} QueryableAre(roster: seq<Peer>)
    ensures forall p :: p in Queryable(roster) <==> p in roster && p.role != "leaf" && p.url != ""
    decreases |roster|
  {
    if roster != [] {
      QueryableAre(roster[..|roster| - 1]);
      assert roster == roster[..|roster| - 1] + [roster[|roster| - 1]];
    }
  }

  /** What a node says about itself. */
  datatype Identity = Identity(url: string, role: string, version: string)

  /** What a node sends: its roster, with versions, and itself. */
  function Mine(self: string, roster: seq<Peer>, id: Identity): seq<Offer> {
    seq(|roster|, i requires 0 <= i < |roster| =>
      Offer(roster[i].name, roster[i].url, roster[i].role, roster[i].version))
    + [Offer(self, id.url, id.role, id.version)]
  }

  /** What it answers: its roster without versions, and without itself. */
  function Reply(roster: seq<Peer>): seq<Offer> {
    seq(|roster|, i requires 0 <= i < |roster| => Offer(roster[i].name, roster[i].url, roster[i].role, ""))
  }

  /** After an offer that is not ignored, the name can be read from and pushed to if and only
      if it was offered as no leaf and with more than slashes for a URL. */
  lemma OfferedIsQueryableIff(self: string, roster: seq<Peer>, o: Offer, now: Time)
    requires Sound(self, roster) && o.name != "" && o.name != self
    ensures o.name in Names(Queryable(WithPeer(self, roster, o, now))) <==>
              o.role != "leaf" && exists i :: 0 <= i < |o.url| && o.url[i] != '/'
  {
    var after := WithPeer(self, roster, o, now);
    WithPeerSound(self, roster, o, now);
    OfferedIs(self, roster, o, now);
    FindIs(after, o.name);
    QueryableAre(after);
    var p := Find(after, o.name).value;
    if o.name in Names(Queryable(after)) {
      var i :| 0 <= i < |Queryable(after)| && Queryable(after)[i].name == o.name;
      assert Queryable(after)[i] in Queryable(after);
      FindUnique(after, Queryable(after)[i]);
      assert o.url[|p.url| - 1] == p.url[|p.url| - 1] != '/';
    }
    if p in Queryable(after) {
      var i :| 0 <= i < |Queryable(after)| && Queryable(after)[i] == p;
      assert o.name == Queryable(after)[i].name;
    }
  }

  /** What is told about the other nodes is what the roster says of them; only the answer has
      no versions and leaves out the node itself. */
  lemma TellsAll(self: string, roster: seq<Peer>, id: Identity, o: Offer)
    ensures o in Mine(self, roster, id) <==>
              || o == Offer(self, id.url, id.role, id.version)
              || exists p :: p in roster && o == Offer(p.name, p.url, p.role, p.version)
    ensures o in Reply(roster) <==> exists p :: p in roster && o == Offer(p.name, p.url, p.role, "")
  {
    var mine, reply := Mine(self, roster, id), Reply(roster);
    forall i | 0 <= i < |roster| ensures mine[i] in mine && reply[i] in reply && roster[i] in roster {
    }
    assert mine[|roster|] in mine;
  }

  lemma MineNames(self: string, roster: seq<Peer>, id: Identity)
    ensures OfferNames(Mine(self, roster, id)) == View(self, roster)
    ensures OfferNames(Reply(roster)) == Names(roster)
  {
    var mine := Mine(self, roster, id);
    assert forall i :: 0 <= i < |roster| ==> mine[i].name == roster[i].name && Reply(roster)[i].name == roster[i].name;
    assert mine[|roster|].name == self;
  }

  ghost predicate World(w: Rosters) {
    "" !in w && forall n :: n in w ==> Sound(n, w[n])
  }

  /** `a` knows `b`, and sends it what it knew when its gossip round began. */
  ghost predicate CanExchange(w: Rosters, a: string, b: string, mine: seq<Offer>) {
    a in w && b in w && a != b && b in Names(w[a]) && OfferNames(mine) <= View(a, w[a])
  }

  /** One round trip of the roster gossip. */
  function Exchange(w: Rosters, a: string, b: string, mine: seq<Offer>, now: Time): Rosters
    requires a in w && b in w
  {
    var theirs := Merged(b, w[b], mine, now);
    w[b := theirs][a := Merged(a, w[a], Reply(theirs), now)]
  }

  /** The same when the answer is lost: the peer merged what it was sent, the sender learned
      nothing. */
  function Told(w: Rosters, b: string, mine: seq<Offer>, now: Time): Rosters
    requires b in w
  {
    w[b := Merged(b, w[b], mine, now)]
  }

  lemma SoundNames(self: string, roster: seq<Peer>)
    requires Sound(self, roster)
    ensures "" !in Names(roster) && self !in Names(roster)
  {
  }

  /** The peer learns what was sent, and the sender all that the peer then knows; every
      roster stays sound. */
  lemma ExchangeViews(w: Rosters, a: string, b: string, mine: seq<Offer>, now: Time)
    requires World(w) && CanExchange(w, a, b, mine)
    ensures var w' := Exchange(w, a, b, mine, now);
            && World(w') && w'.Keys == w.Keys
            && View(b, w'[b]) == View(b, w[b]) + OfferNames(mine)
            && View(a, w'[a]) == View(a, w[a]) + View(b, w'[b])
            && forall n :: n in w && n != a && n != b ==> w'[n] == w[n]
  {
    var theirs := Merged(b, w[b], mine, now);
    MergedView(b, w[b], mine, now);
    MergedSound(b, w[b], mine, now);
    MergedView(a, w[a], Reply(theirs), now);
    MergedSound(a, w[a], Reply(theirs), now);
    MineNames(b, theirs, Identity("", "", ""));
    SoundNames(a, w[a]);
    SoundNames(b, theirs);
  }

  /** With the answer lost, only the peer learns, and it learns all that was sent. */
  lemma ToldViews(w: Rosters, a: string, b: string, mine: seq<Offer>, now: Time)
    requires World(w) && CanExchange(w, a, b, mine)
    ensures var w' := Told(w, b, mine, now);
            && World(w') && w'.Keys == w.Keys && View(b, w'[b]) == View(b, w[b]) + OfferNames(mine)
            && forall n :: n in w && n != b ==> w'[n] == w[n]
  {
    MergedView(b, w[b], mine, now);
    MergedSound(b, w[b], mine, now);
    SoundNames(a, w[a]);
  }

  /** When the sender speaks from what it knows now, both end with all that either knew. */
  lemma FreshExchange(w: Rosters, a: string, b: string, id: Identity, now: Time)
    requires World(w) && a in w && CanExchange(w, a, b, Mine(a, w[a], id))
    ensures var w' := Exchange(w, a, b, Mine(a, w[a], id), now);
            View(a, w'[a]) == View(b, w'[b]) == View(a, w[a]) + View(b, w[b])
  {
    MineNames(a, w[a], id);
    ExchangeViews(w, a, b, Mine(a, w[a], id), now);
  }

  // ---- progress

  ghost predicate SameViews(w: Rosters, w': Rosters) {
    w.Keys == w'.Keys && forall n :: n in w ==> View(n, w[n]) == View(n, w'[n])
  }

  ghost predicate KnownTo(w: Rosters, all: set<string>) {
    forall n :: n in w ==> View(n, w[n]) <= all
  }

  ghost function Unknown(w: Rosters, all: set<string>): map<string, int> {
    map n | n in w :: |all - View(n, w[n])|
  }

  /** The number of (node, name) pairs such that the node does not know the name. */
  ghost function Missing(w: Rosters, all: set<string>): int { Sum(Unknown(w, all)) }

  lemma FewerUnknown(all: set<string>, before: set<string>, after: set<string>)
    requires before <= after <= all
    ensures |all - after| <= |all - before|
    ensures |all - after| == |all - before| <==> before == after
  {
    assert all - before == (all - after) + (after - before);
    assert (all - after) !! (after - before);
  }

  lemma SumTwo<K(!new)>(m: map<K, int>, m': map<K, int>, a: K, b: K)
    requires m'.Keys == m.Keys && a in m && b in m && a != b && forall k :: k in m && k != a && k != b ==> m'[k] == m[k]
    ensures Sum(m') == Sum(m) - m[a] - m[b] + m'[a] + m'[b]
  {
    var mid := m[b := m'[b]];
    SumReplaced(m, b, m'[b]);
    SumReplaced(mid, a, m'[a]);
    assert m' == mid[a := m'[a]];
  }

  ghost predicate Growing(w: Rosters, w': Rosters) {
    forall n :: n in w && n in w' ==> View(n, w[n]) <= View(n, w'[n])
  }

  lemma OthersUnknown(w: Rosters, w': Rosters, n: string, all: set<string>)
    requires n in w && n in w' && w'[n] == w[n]
    ensures n in Unknown(w, all) && n in Unknown(w', all) && Unknown(w', all)[n] == Unknown(w, all)[n]
  {
  }

  lemma TwoMissing(w: Rosters, w': Rosters, a: string, b: string, all: set<string>)
    requires w'.Keys == w.Keys && a in w && b in w && a != b && forall n :: n in w && n != a && n != b ==> w'[n] == w[n]
    ensures Missing(w', all)
            == Missing(w, all) - Unknown(w, all)[a] - Unknown(w, all)[b] + Unknown(w', all)[a] + Unknown(w', all)[b]
  {
    var m, m' := Unknown(w, all), Unknown(w', all);
    forall n | n in m && n != a && n != b ensures m'[n] == m[n] {
      OthersUnknown(w, w', n, all);
    }
    SumTwo(m, m', a, b);
  }

  lemma ViewGrows(w: Rosters, w': Rosters, n: string, all: set<string>)
    requires n in w && n in w' && View(n, w[n]) <= View(n, w'[n]) <= all
    ensures Unknown(w', all)[n] <= Unknown(w, all)[n]
    ensures Unknown(w', all)[n] == Unknown(w, all)[n] <==> View(n, w[n]) == View(n, w'[n])
  {
    FewerUnknown(all, View(n, w[n]), View(n, w'[n]));
  }

  lemma TwoSame(w: Rosters, w': Rosters, a: string, b: string)
    requires w'.Keys == w.Keys && a in w && b in w && forall n :: n in w && n != a && n != b ==> w'[n] == w[n]
    ensures SameViews(w, w') <==> View(a, w[a]) == View(a, w'[a]) && View(b, w[b]) == View(b, w'[b])
    ensures View(a, w[a]) <= View(a, w'[a]) && View(b, w[b]) <= View(b, w'[b]) ==> Growing(w, w')
  {
  }

  lemma TwoProgress(w: Rosters, w': Rosters, a: string, b: string, all: set<string>, x: int, y: int, x': int, y': int)
    requires w'.Keys == w.Keys && a in w && b in w && a != b && forall n :: n in w && n != a && n != b ==> w'[n] == w[n]
    requires x == Unknown(w, all)[a] && y == Unknown(w, all)[b] && x' == Unknown(w', all)[a]
    requires y' == Unknown(w', all)[b]
    requires x' <= x && y' <= y
    ensures Missing(w', all) <= Missing(w, all) && (Missing(w', all) == Missing(w, all) <==> x == x' && y == y')
  {
    TwoMissing(w, w', a, b, all);
  }

  lemma ExchangeGrows(w: Rosters, a: string, b: string, mine: seq<Offer>, now: Time, all: set<string>)
    requires World(w) && CanExchange(w, a, b, mine) && KnownTo(w, all)
    ensures var w' := Exchange(w, a, b, mine, now);
            && w'.Keys == w.Keys && KnownTo(w', all) && Growing(w, w')
            && forall n :: n in w && n != a && n != b ==> w'[n] == w[n]
  {
    ExchangeViews(w, a, b, mine, now);
    TwoSame(w, Exchange(w, a, b, mine, now), a, b);
  }

  lemma GrowingMissing(w: Rosters, w': Rosters, a: string, b: string, all: set<string>)
    requires w'.Keys == w.Keys && a in w && b in w && a != b && forall n :: n in w && n != a && n != b ==> w'[n] == w[n]
    requires Growing(w, w') && KnownTo(w', all)
    ensures Missing(w', all) <= Missing(w, all) && (Missing(w', all) == Missing(w, all) <==> SameViews(w, w'))
  {
    ViewGrows(w, w', a, all);
    ViewGrows(w, w', b, all);
    TwoSame(w, w', a, b);
    TwoProgress(w, w', a, b, all, Unknown(w, all)[a], Unknown(w, all)[b], Unknown(w', all)[a], Unknown(w', all)[b]);
  }

  /** An exchange never makes a node forget a name, and lowers the number of missing names
      exactly when it changes what anybody knows. */
  lemma ExchangeProgress(w: Rosters, a: string, b: string, mine: seq<Offer>, now: Time, all: set<string>)
    requires World(w) && CanExchange(w, a, b, mine) && KnownTo(w, all)
    ensures var w' := Exchange(w, a, b, mine, now);
            && KnownTo(w', all) && Growing(w, w')
            && Missing(w', all) <= Missing(w, all) && (Missing(w', all) == Missing(w, all) <==> SameViews(w, w'))
  {
    ExchangeGrows(w, a, b, mine, now, all);
    GrowingMissing(w, Exchange(w, a, b, mine, now), a, b, all);
  }

  datatype Talk = Talk(a: string, b: string, mine: seq<Offer>, now: Time, answered: bool)

  ghost function Exchanged(w: Rosters, t: Talk): Rosters
    requires t.a in w && t.b in w
  {
    if t.answered then Exchange(w, t.a, t.b, t.mine, t.now) else Told(w, t.b, t.mine, t.now)
  }

  /** Rosters stay sound. */
  lemma TalkSound(w: Rosters, t: Talk)
    requires World(w) && CanExchange(w, t.a, t.b, t.mine)
    ensures World(Exchanged(w, t))
  {
    ExchangeViews(w, t.a, t.b, t.mine, t.now);
    ToldViews(w, t.a, t.b, t.mine, t.now);
  }

  ghost predicate Talks(w: Rosters, talks: seq<Talk>)
    requires World(w)
    decreases |talks|
  {
    talks != [] ==>
      CanExchange(w, talks[0].a, talks[0].b, talks[0].mine)
      && (TalkSound(w, talks[0]); Talks(Exchanged(w, talks[0]), talks[1..]))
  }

  lemma TalkGrows(w: Rosters, t: Talk, all: set<string>)
    requires World(w) && CanExchange(w, t.a, t.b, t.mine) && KnownTo(w, all)
    ensures var w' := Exchanged(w, t);
            && w'.Keys == w.Keys && KnownTo(w', all) && Growing(w, w')
            && forall n :: n in w && n != t.a && n != t.b ==> w'[n] == w[n]
  {
    if t.answered {
      ExchangeGrows(w, t.a, t.b, t.mine, t.now, all);
    } else {
      ToldViews(w, t.a, t.b, t.mine, t.now);
    }
  }

  /** Answered or not, a round never makes a node forget a name, and lowers the number of
      missing names exactly when it changes what anybody knows. */
  lemma TalkProgress(w: Rosters, t: Talk, all: set<string>)
    requires World(w) && CanExchange(w, t.a, t.b, t.mine) && KnownTo(w, all)
    ensures var w' := Exchanged(w, t);
            && KnownTo(w', all) && Growing(w, w')
            && Missing(w', all) <= Missing(w, all) && (Missing(w', all) == Missing(w, all) <==> SameViews(w, w'))
  {
    TalkGrows(w, t, all);
    GrowingMissing(w, Exchanged(w, t), t.a, t.b, all);
  }

  /** How many exchanges of the run changed what anybody knows. */
  ghost function Changes(w: Rosters, talks: seq<Talk>): int
    requires World(w) && Talks(w, talks)
    decreases |talks|
  {
    if talks == [] then 0
    else
      TalkSound(w, talks[0]);
      (if SameViews(w, Exchanged(w, talks[0])) then 0 else 1) + Changes(Exchanged(w, talks[0]), talks[1..])
  }

  /** As long as nobody is removed, at most as many exchanges, answered or not, change
      anything as names are missing at the start. */
  lemma {:induction false} ChangesBounded(w: Rosters, talks: seq<Talk>, all: set<string>)
    requires World(w) && Talks(w, talks) && KnownTo(w, all)
    ensures Changes(w, talks) <= Missing(w, all)
    decreases |talks|
  {
    if talks == [] {
      SumNonNegative(Unknown(w, all));
    } else {
      var t := talks[0];
      TalkSound(w, t);
      TalkProgress(w, t, all);
      ChangesBounded(Exchanged(w, t), talks[1..], all);
    }
  }

  // ---- where it settles

  /** `a` gossips with `b`. */
  ghost predicate Link(w: Rosters, a: string, b: string) {
    a in w && b in w && exists p :: p in Queryable(w[a]) && p.name == b
  }

  /** No exchange along any link would change what anybody knows. */
  ghost predicate Settled(w: Rosters, id: Identity, now: Time) {
    forall a, b {:trigger Link(w, a, b)} :: Link(w, a, b) ==> SameViews(w, Exchange(w, a, b, Mine(a, w[a], id), now))
  }

  lemma LinkSettles(w: Rosters, a: string, b: string, id: Identity, now: Time)
    requires World(w) && Link(w, a, b)
    ensures SameViews(w, Exchange(w, a, b, Mine(a, w[a], id), now)) <==> View(a, w[a]) == View(b, w[b])
  {
    var p :| p in Queryable(w[a]) && p.name == b;
    QueryableAre(w[a]);
    NamedIn(w[a], b);
    SoundNames(a, w[a]);
    MineNames(a, w[a], id);
    FreshExchange(w, a, b, id, now);
    ExchangeViews(w, a, b, Mine(a, w[a], id), now);
  }

  /** The gossip is settled exactly when the two ends of every link know the same names. */
  lemma SettledIff(w: Rosters, id: Identity, now: Time)
    requires World(w)
    ensures Settled(w, id, now)
       <==> forall a, b {:trigger Link(w, a, b)} :: Link(w, a, b) ==> View(a, w[a]) == View(b, w[b])
  {
    forall a, b | Link(w, a, b)
      ensures SameViews(w, Exchange(w, a, b, Mine(a, w[a], id), now)) <==> View(a, w[a]) == View(b, w[b])
    {
      LinkSettles(w, a, b, id, now);
    }
  }

  /** A walk over links in either direction. */
  ghost predicate Connected(w: Rosters, walk: seq<string>)
    decreases |walk|
  {
    && |walk| > 0 && walk[0] in w
    && (|walk| > 1 ==> (Link(w, walk[0], walk[1]) || Link(w, walk[1], walk[0])) && Connected(w, walk[1..]))
  }

  /** Settled gossip means that all nodes of a connected component know the same names. */
  lemma {:induction false} SettledComponentsAgree(w: Rosters, id: Identity, now: Time, walk: seq<string>)
    requires World(w) && Settled(w, id, now) && Connected(w, walk)
    ensures walk[|walk| - 1] in w && View(walk[0], w[walk[0]]) == View(walk[|walk| - 1], w[walk[|walk| - 1]])
    decreases |walk|
  {
    if |walk| > 1 {
      SettledIff(w, id, now);
      SettledComponentsAgree(w, id, now, walk[1..]);
    }
  }

  /** Versions travel only from the sender: the answer has none, so that no version the
      sender holds changes. */
  lemma AnswerKeepsVersions(w: Rosters, a: string, b: string, mine: seq<Offer>, now: Time, p: Peer)
    requires World(w) && CanExchange(w, a, b, mine) && p in w[a]
    ensures var found := Find(Exchange(w, a, b, mine, now)[a], p.name);
            found.Some? && found.value.version == p.version && found.value.added == p.added
  {
    MergedKeeps(a, w[a], Reply(Merged(b, w[b], mine, now)), now, p);
  }

  // ---- one node

  class RosterStore {
    const self: string
    var peers: seq<Peer>

    constructor (self: string)
      ensures this.self == self && peers == [] && Sound(self, peers)
    {
      this.self, peers := self, [];
    }

    /** `add_peer`. */
    method AddPeer(o: Offer, now: Time)
      requires Sound(self, peers)
      modifies `peers
      ensures peers == WithPeer(self, old(peers), o, now) && Sound(self, peers)
    {
      if !(o.name == "" || o.name == self) {
        WithPeerSound(self, peers, o, now);
        var prior := First(o.name);
        var kept := [];
        for i := 0 to |peers|
          invariant kept == Others(peers[..i], o.name)
        {
          assert peers[..i + 1][..i] == peers[..i];
          if peers[i].name != o.name {
            kept := kept + [peers[i]];
          }
        }
        assert peers[..|peers|] == peers;
        peers := kept + [Entered(prior, o, now)];
      }
    }

    /** The first entry with the name. */
    method First(name: string) returns (found: Option<Peer>)
      ensures found == Find(peers, name)
    {
      found := None;
      var i := |peers|;
      while i > 0
        invariant 0 <= i <= |peers|
        invariant found == Find(peers[i..], name)
      {
        i := i - 1;
        assert peers[i..][1..] == peers[i + 1..];
        if peers[i].name == name {
          found := Some(peers[i]);
        }
      }
      assert peers[0..] == peers;
    }

    /** `merge_roster`. */
    method MergeRoster(offers: seq<Offer>, now: Time)
      requires Sound(self, peers)
      modifies `peers
      ensures peers == Merged(self, old(peers), offers, now) && Sound(self, peers)
    {
      for i := 0 to |offers|
        invariant peers == Merged(self, old(peers), offers[..i], now) && Sound(self, peers)
      {
        assert offers[..i + 1][..i] == offers[..i];
        AddPeer(offers[i], now);
      }
      assert offers[..|offers|] == offers;
    }

    /** `queryable_peers`. */
    method QueryablePeers() returns (out: seq<Peer>)
      ensures out == Queryable(peers)
    {
      out := [];
      for i := 0 to |peers|
        invariant out == Queryable(peers[..i])
      {
        assert peers[..i + 1][..i] == peers[..i];
        if peers[i].role != "leaf" && peers[i].url != "" {
          out := out + [peers[i]];
        }
      }
      assert peers[..|peers|] == peers;
    }

    /** The roster handler of the peer: merge, then answer with the whole roster. */
    method HandleRoster(mine: seq<Offer>, now: Time) returns (reply: seq<Offer>)
      requires Sound(self, peers)
      modifies `peers
      ensures peers == Merged(self, old(peers), mine, now) && Sound(self, peers) && reply == Reply(peers)
    {
      MergeRoster(mine, now);
      reply := [];
      for i := 0 to |peers|
        invariant reply == Reply(peers)[..i]
      {
        reply := reply + [Offer(peers[i].name, peers[i].url, peers[i].role, "")];
      }
    }
  }

  /** One round trip between two objects is one `Exchange`. */
  method GossipOnce(a: RosterStore, b: RosterStore, mine: seq<Offer>, now: Time, ghost w: Rosters)
    requires a != b && a.self != b.self && Sound(a.self, a.peers) && Sound(b.self, b.peers)
    requires a.self in w && b.self in w && w[a.self] == a.peers && w[b.self] == b.peers
    modifies a`peers, b`peers
    ensures var w' := Exchange(w, a.self, b.self, mine, now);
            a.peers == w'[a.self] && b.peers == w'[b.self] && Sound(a.self, a.peers) && Sound(b.self, b.peers)
  {
    var reply := b.HandleRoster(mine, now);
    a.MergeRoster(reply, now);
  }
}
