/** The peer roster and its gossip (secwatch/cluster.py, the roster handler in
    secwatch/web.py). */
module Roster {
  import opened Collections
  import opened Windows

  /** A roster entry; a missing version is "". */
  datatype Peer = Peer(name: string, url: string, role: string, added: Time, version: string)

  /** What one node tells another about a peer. */
  datatype Offer = Offer(name: string, url: string, role: string, version: string)

  /** `rstrip("/")`. */
  function Stripped(url: string): (r: string)
    ensures r <= url && (forall i :: |r| <= i < |url| ==> url[i] == '/') && (r != "" ==> r[|r| - 1] != '/')
  {
    if url != "" && url[|url| - 1] == '/' then Stripped(url[..|url| - 1]) else url
  }

  function Find(roster: seq<Peer>, name: string): Option<Peer>
    decreases |roster|
  {
    if roster == [] then None
    else if roster[0].name == name then Some(roster[0])
    else Find(roster[1..], name)
  }

  function Others(roster: seq<Peer>, name: string): seq<Peer>
    decreases |roster|
  {
    if roster == [] then []
    else
      var last := roster[|roster| - 1];
      Others(roster[..|roster| - 1], name) + (if last.name != name then [last] else [])
  }

  /** The entry that replaces the earlier one: the first-added time stays, and so does the
      version unless the offer has one. */
  function Entered(prior: Option<Peer>, o: Offer, now: Time): Peer {
    Peer(o.name, Stripped(o.url), o.role,
         if prior.Some? then prior.value.added else now,
         if o.version != "" then o.version else if prior.Some? then prior.value.version else "")
  }

  predicate Ignored(self: string, name: string) { name == "" || name == self }

  /** `add_peer`. */
  function WithPeer(self: string, roster: seq<Peer>, o: Offer, now: Time): seq<Peer> {
    if Ignored(self, o.name) then roster
    else Others(roster, o.name) + [Entered(Find(roster, o.name), o, now)]
  }

  /** `merge_roster`. */
  function Merged(self: string, roster: seq<Peer>, offers: seq<Offer>, now: Time): seq<Peer>
    decreases |offers|
  {
    if offers == [] then roster
    else WithPeer(self, Merged(self, roster, offers[..|offers| - 1], now), offers[|offers| - 1], now)
  }

  // ---- what every roster keeps

  ghost predicate Unique(roster: seq<Peer>) {
    forall i, j :: 0 <= i < j < |roster| ==> roster[i].name != roster[j].name
  }

  /** Names are unique, none is empty, and the node itself is not listed. */
  ghost predicate Sound(self: string, roster: seq<Peer>) {
    Unique(roster) && forall i :: 0 <= i < |roster| ==> !Ignored(self, roster[i].name)
  }

  lemma {:induction false} OthersAre(roster: seq<Peer>, name: string)
    ensures forall p :: p in Others(roster, name) <==> p in roster && p.name != name
    ensures Unique(roster) ==> Unique(Others(roster, name))
    decreases |roster|
  {
    if roster != [] {
      var front, last := roster[..|roster| - 1], roster[|roster| - 1];
      OthersAre(front, name);
      assert roster == front + [last];
      if Unique(roster) {
        var rest := Others(front, name);
        forall i, j | 0 <= i < j < |Others(roster, name)|
          ensures Others(roster, name)[i].name != Others(roster, name)[j].name
        {
          if j == |rest| {
            assert rest[i] in front;
          }
        }
      }
    }
  }

  lemma {:induction false} FindIs(roster: seq<Peer>, name: string)
    ensures match Find(roster, name)
            case Some(p) => p in roster && p.name == name
            case None => forall i :: 0 <= i < |roster| ==> roster[i].name != name
    decreases |roster|
  {
    if roster != [] && roster[0].name != name {
      FindIs(roster[1..], name);
      assert roster == [roster[0]] + roster[1..];
    }
  }

  lemma {:induction false} FindUnique(roster: seq<Peer>, p: Peer)
    requires Unique(roster) && p in roster
    ensures Find(roster, p.name) == Some(p)
    decreases |roster|
  {
    if roster[0] != p {
      var i :| 0 <= i < |roster| && roster[i] == p;
      assert roster[1..][i - 1] == p;
      FindUnique(roster[1..], p);
    }
  }

  lemma WithPeerSound(self: string, roster: seq<Peer>, o: Offer, now: Time)
    requires Sound(self, roster)
    ensures Sound(self, WithPeer(self, roster, o, now))
  {
    OthersAre(roster, o.name);
    var others := Others(roster, o.name);
    forall i | 0 <= i < |others| ensures others[i].name != o.name && !Ignored(self, others[i].name) {
      assert others[i] in others;
    }
  }

  /** An offer is looked up as entered; every other name is looked up as before. */
  lemma WithPeerFinds(self: string, roster: seq<Peer>, o: Offer, now: Time, name: string)
    requires Sound(self, roster)
    ensures Find(WithPeer(self, roster, o, now), name)
         == if name == o.name && !Ignored(self, name) then Some(Entered(Find(roster, name), o, now))
           else Find(roster, name)
  {
    var after := WithPeer(self, roster, o, now);
    WithPeerSound(self, roster, o, now);
    OthersAre(roster, o.name);
    FindIs(roster, name);
    FindIs(after, name);
    if !Ignored(self, o.name) {
      var entered := Entered(Find(roster, o.name), o, now);
      assert after[|after| - 1] == entered;
      assert forall p :: p in after && p.name != o.name ==> p in roster;
      if name == o.name {
        FindUnique(after, entered);
      } else if Find(roster, name).Some? {
        assert Find(roster, name).value in after;
        FindUnique(after, Find(roster, name).value);
      }
    }
  }

  /** The URL without its trailing slashes. */
  predicate IsBare(url: string, bare: string) {
    && bare <= url && (forall i :: |bare| <= i < |url| ==> url[i] == '/')
    && (bare != "" ==> bare[|bare| - 1] != '/')
  }

  /** What an offer leaves: nothing, if it names nobody or the node itself; otherwise an entry
      with the offered role and the offered URL less its trailing slashes, first added when the
      name was, with the version that is known. */
  lemma OfferedIs(self: string, roster: seq<Peer>, o: Offer, now: Time)
    requires Sound(self, roster)
    ensures o.name == "" || o.name == self ==> WithPeer(self, roster, o, now) == roster
    ensures o.name != "" && o.name != self ==>
              var prior, found := Find(roster, o.name), Find(WithPeer(self, roster, o, now), o.name);
              && found.Some? && found.value.name == o.name && found.value.role == o.role
              && IsBare(o.url, found.value.url)
              && found.value.added == (if prior.Some? then prior.value.added else now)
              && found.value.version == (if o.version == "" && prior.Some? then prior.value.version else o.version)
  {
    WithPeerFinds(self, roster, o, now, o.name);
  }

  /** After any offers the last one of a name has settled its URL and its role. */
  lemma {:induction false} MergedTeaches(self: string, roster: seq<Peer>, offers: seq<Offer>, now: Time, k: nat)
    requires Sound(self, roster) && k < |offers| && offers[k].name != "" && offers[k].name != self
    requires forall j :: k < j < |offers| ==> offers[j].name != offers[k].name
    ensures var found := Find(Merged(self, roster, offers, now), offers[k].name);
            found.Some? && found.value.role == offers[k].role && IsBare(offers[k].url, found.value.url)
    decreases |offers|
  {
    var front, o := offers[..|offers| - 1], offers[|offers| - 1];
    var mid := Merged(self, roster, front, now);
    MergedSound(self, roster, front, now);
    if k == |offers| - 1 {
      OfferedIs(self, mid, o, now);
    } else {
      MergedTeaches(self, roster, front, now, k);
      WithPeerFinds(self, mid, o, now, offers[k].name);
    }
  }

  /** Merging keeps a roster sound. */
  lemma {:induction false} MergedSound(self: string, roster: seq<Peer>, offers: seq<Offer>, now: Time)
    requires Sound(self, roster)
    ensures Sound(self, Merged(self, roster, offers, now))
    decreases |offers|
  {
    if offers != [] {
      MergedSound(self, roster, offers[..|offers| - 1], now);
      WithPeerSound(self, Merged(self, roster, offers[..|offers| - 1], now), offers[|offers| - 1], now);
    }
  }

  /** After one offer, a known peer keeps its first-added time, and its version too unless
      the offer is about it and brings another. */
  lemma WithPeerKeeps(self: string, roster: seq<Peer>, o: Offer, now: Time, p: Peer)
    requires Sound(self, roster) && p in roster
    ensures var found := Find(WithPeer(self, roster, o, now), p.name);
            && found.Some? && found.value.added == p.added
            && (found.value.version == p.version
                || (o.name == p.name && o.version != "" && found.value.version == o.version))
  {
    WithPeerSound(self, roster, o, now);
    OthersAre(roster, o.name);
    FindUnique(roster, p);
    var after := WithPeer(self, roster, o, now);
    if p.name == o.name && !Ignored(self, o.name) {
      assert after[|after| - 1] in after;
      FindUnique(after, after[|after| - 1]);
    } else {
      assert p in after;
      FindUnique(after, p);
    }
  }

  /** However often a peer is offered again, its first-added time stays, and a known
      version changes only to another that was offered: it is never lost. */
  lemma {:induction false} MergedKeeps(self: string, roster: seq<Peer>, offers: seq<Offer>, now: Time, p: Peer)
    requires Sound(self, roster) && p in roster
    ensures var found := Find(Merged(self, roster, offers, now), p.name);
            && found.Some? && found.value.added == p.added
            && (found.value.version == p.version
                || exists i ::
                     && 0 <= i < |offers| && offers[i].name == p.name
                     && offers[i].version != "" && found.value.version == offers[i].version)
    decreases |offers|
  {
    if offers == [] {
      FindUnique(roster, p);
    } else {
      var front := offers[..|offers| - 1];
      var mid := Merged(self, roster, front, now);
      MergedKeeps(self, roster, front, now, p);
      MergedSound(self, roster, front, now);
      FindIs(mid, p.name);
      WithPeerKeeps(self, mid, offers[|offers| - 1], now, Find(mid, p.name).value);
    }
  }

  // ---- names

  function Names(roster: seq<Peer>): set<string> { set i | 0 <= i < |roster| :: roster[i].name }

  function OfferNames(offers: seq<Offer>): set<string> { set i | 0 <= i < |offers| :: offers[i].name }

  /** Whom a node knows, itself included. */
  function View(self: string, roster: seq<Peer>): set<string> { Names(roster) + {self} }

  lemma NamedIn(roster: seq<Peer>, name: string)
    ensures name in Names(roster) <==> exists p :: p in roster && p.name == name
  {
    if name in Names(roster) {
      var i :| 0 <= i < |roster| && roster[i].name == name;
      assert roster[i] in roster;
    }
  }

  lemma WithPeerView(self: string, roster: seq<Peer>, o: Offer, now: Time)
    ensures View(self, WithPeer(self, roster, o, now)) == View(self, roster) + ({o.name} - {""})
  {
    var after, others := WithPeer(self, roster, o, now), Others(roster, o.name);
    OthersAre(roster, o.name);
    if !Ignored(self, o.name) {
      forall name ensures name in Names(after) <==> name in Names(roster) || name == o.name {
        NamedIn(others, name);
        NamedIn(roster, name);
        NamedIn(after, name);
        assert after[|others|] in after;
        assert forall p :: p in after <==> p in others || p == after[|others|];
      }
    }
  }

  /** A merge adds exactly the names it was offered. */
  lemma {:induction false} MergedView(self: string, roster: seq<Peer>, offers: seq<Offer>, now: Time)
    ensures View(self, Merged(self, roster, offers, now)) == View(self, roster) + (OfferNames(offers) - {""})
    decreases |offers|
  {
    if offers != [] {
      var front, last := offers[..|offers| - 1], offers[|offers| - 1];
      MergedView(self, roster, front, now);
      WithPeerView(self, Merged(self, roster, front, now), last, now);
      assert OfferNames(offers) == OfferNames(front) + {last.name} by {
        assert offers == front + [last];
      }
    }
  }
}
