/** How long and how far a ban travels: gossip does not lengthen a ban by more than the
    72 s floor, and a ban follows every path of nodes that pull it. */
module BanSpread {
  import opened Collections
  import opened Windows
  import opened Bans
  import opened Edge
  import opened BanGossip
  import opened BanMesh

  // ---- the expiry of every copy of a ban

  ghost predicate BatchWithin(batch: seq<Entry>, ip: string, fits: Time -> bool) {
    forall i :: 0 <= i < |batch| && batch[i].ip == ip ==> fits(batch[i].expires)
  }

  ghost predicate StoreWithin(s: Store, ip: string, fits: Time -> bool) {
    (ip in s.bans ==> fits(s.bans[ip].expires)) && BatchWithin(s.outbox, ip, fits)
  }

  /** The expiry of every copy of the ban of `ip`, in tables, queues and messages. */
  ghost predicate Within(w: World, ip: string, fits: Time -> bool) {
    && (forall n :: n in w.nodes ==> StoreWithin(w.nodes[n], ip, fits))
    && (forall m :: m in w.flight ==> BatchWithin(m.bans, ip, fits))
  }

  /** No copy expires after `t`. */
  ghost predicate Bounded(w: World, ip: string, t: Time) {
    Within(w, ip, x => x <= t)
  }

  function TakenExpiry(site: Site, allow: string -> bool, s: Store, batch: seq<Entry>, ip: string,
                       now: Time): Option<Time> {
    var k := Last(site, allow, Active(s.bans, now), batch, ip, now);
    if k < 0 then None else Some(batch[k].expires)
  }

  /** The expiry on the entry that this act adopts for the IP, if it adopts one. */
  ghost function Adopted(sites: map<string, Site>, w: World, act: Act, ip: string): Option<Time>
    requires Named(sites, w) && Legal(w, act)
  {
    match act
    case Deliver(msg, allow, now) => TakenExpiry(sites[msg.dest], allow, w.nodes[msg.dest], msg.bans, ip, now)
    case Pull(n, peer, ips, allow, now) => TakenExpiry(sites[n], allow, w.nodes[n], Answer(w, peer, ips, now), ip, now)
    case _ => None
  }

  lemma AppliedWithin(site: Site, allow: string -> bool, s: Store, batch: seq<Entry>, sender: string, now: Time,
                      ip: string, fits: Time -> bool)
    requires StoreWithin(s, ip, fits)
    requires TakenExpiry(site, allow, s, batch, ip, now).Some? ==>
            fits(Extended(TakenExpiry(site, allow, s, batch, ip, now).value, now))
    ensures StoreWithin(Applied(site, allow, s, batch, sender, now), ip, fits)
  {
    AppliedRow(site, allow, Active(s.bans, now), s, batch, sender, ip, now);
  }

  lemma NodeWithin(w: World, n: string, s: Store, ip: string, fits: Time -> bool, made: set<Made>)
    requires Within(w, ip, fits) && n in w.nodes && StoreWithin(s, ip, fits)
    ensures Within(World(w.nodes[n := s], w.flight, made), ip, fits)
  {
  }

  lemma SentWithin(w: World, msgs: set<Msg>, ip: string, fits: Time -> bool)
    requires Within(w, ip, fits) && forall m :: m in msgs ==> BatchWithin(m.bans, ip, fits)
    ensures Within(w.(flight := w.flight + msgs), ip, fits)
  {
  }

  lemma AnswerWithin(w: World, n: string, ips: seq<string>, now: Time, ip: string, fits: Time -> bool)
    requires n in w.nodes && IsListing(w.nodes[n].bans, now, ips) && StoreWithin(w.nodes[n], ip, fits)
    ensures BatchWithin(Answer(w, n, ips, now), ip, fits) && BatchWithin(Own(n, Answer(w, n, ips, now)), ip, fits)
  {
    Listed(w.nodes[n].bans, now, ips);
    OwnIsPart(n, Answer(w, n, ips, now));
  }

  lemma TalkWithin(sites: map<string, Site>, w: World, act: Act, ip: string, fits: Time -> bool)
    requires Named(sites, w) && Legal(w, act) && Within(w, ip, fits) && (act.Push? || act.Serve? || act.Reshare?)
    ensures Within(Step(sites, w, act), ip, fits)
  {
    match act
    case Push(n, dests, _) =>
      var msgs := Sent(dests, n, w.nodes[n].outbox);
      SentWithin(w, msgs, ip, fits);
      NodeWithin(w.(flight := w.flight + msgs), n, w.nodes[n].(outbox := []), ip, fits, w.made);
    case Serve(n, dest, ips, now) =>
      AnswerWithin(w, n, ips, now, ip, fits);
      SentWithin(w, {Msg(dest, n, Answer(w, n, ips, now))}, ip, fits);
    case Reshare(n, dests, ips, now) =>
      AnswerWithin(w, n, ips, now, ip, fits);
      SentWithin(w, Sent(dests, n, Own(n, Answer(w, n, ips, now))), ip, fits);
  }

  lemma AloneWithin(sites: map<string, Site>, w: World, act: Act, ip: string, fits: Time -> bool)
    requires Named(sites, w) && Legal(w, act) && Within(w, ip, fits)
    requires act.Local? || act.Unban? || act.Expire? || act.Restart?
    requires act.Local? && act.ip == ip ==> fits(act.now + act.ttl)
    ensures Within(Step(sites, w, act), ip, fits)
  {
    NodeWithin(w, act.node, Step(sites, w, act).nodes[act.node], ip, fits, Step(sites, w, act).made);
  }

  lemma AdoptWithin(sites: map<string, Site>, w: World, act: Act, ip: string, fits: Time -> bool)
    requires Named(sites, w) && Legal(w, act) && Within(w, ip, fits) && (act.Deliver? || act.Pull?)
    requires Adopted(sites, w, act, ip).Some? ==> fits(Extended(Adopted(sites, w, act, ip).value, act.now))
    ensures Within(Step(sites, w, act), ip, fits)
  {
    match act
    case Deliver(msg, allow, now) =>
      AppliedWithin(sites[msg.dest], allow, w.nodes[msg.dest], msg.bans, msg.sender, now, ip, fits);
      NodeWithin(w, msg.dest, Step(sites, w, act).nodes[msg.dest], ip, fits, w.made);
    case Pull(n, peer, ips, allow, now) =>
      AppliedWithin(sites[n], allow, w.nodes[n], Answer(w, peer, ips, now), peer, now, ip, fits);
      NodeWithin(w, n, Step(sites, w, act).nodes[n], ip, fits, w.made);
  }

  /** A step keeps every copy within bounds when the copies it makes new are: a ban made
      here, or one adopted under a possibly later expiry. */
  lemma StepWithin(sites: map<string, Site>, w: World, act: Act, ip: string, fits: Time -> bool)
    requires Named(sites, w) && Legal(w, act) && Within(w, ip, fits)
    requires Adopted(sites, w, act, ip).Some? ==> fits(Extended(Adopted(sites, w, act, ip).value, act.now))
    requires act.Local? && act.ip == ip ==> fits(act.now + act.ttl)
    ensures Within(Step(sites, w, act), ip, fits)
  {
    match act
    case Deliver(_, _, _) => AdoptWithin(sites, w, act, ip, fits);
    case Pull(_, _, _, _, _) => AdoptWithin(sites, w, act, ip, fits);
    case Push(_, _, _) => TalkWithin(sites, w, act, ip, fits);
    case Serve(_, _, _, _) => TalkWithin(sites, w, act, ip, fits);
    case Reshare(_, _, _, _) => TalkWithin(sites, w, act, ip, fits);
    case Lose(_, _) =>
    case _ => AloneWithin(sites, w, act, ip, fits);
  }

  /** What is adopted was a copy before. */
  lemma AdoptedWasCopy(sites: map<string, Site>, w: World, act: Act, ip: string, fits: Time -> bool)
    requires Named(sites, w) && Legal(w, act) && Within(w, ip, fits)
    ensures Adopted(sites, w, act, ip).Some? ==>
            fits(Adopted(sites, w, act, ip).value) && Adopted(sites, w, act, ip).value > act.now
  {
    if act.Pull? {
      AnswerWithin(w, act.peer, act.ips, act.now, ip, fits);
    }
  }

  lemma Widened(w: World, ip: string, t: Time, t': Time)
    requires Bounded(w, ip, t) && t <= t'
    ensures Bounded(w, ip, t')
  {
    var below, below' := (x: Time) => x <= t, (x: Time) => x <= t';
    assert Within(w, ip, below) ==> Within(w, ip, below');
  }

  /** A gossip step never raises the latest expiry of an IP above what it was or the
      time of the step plus 72 s, whichever is later. */
  lemma GossipBounds(sites: map<string, Site>, w: World, act: Act, ip: string, t: Time)
    requires Named(sites, w) && Legal(w, act) && !(act.Local? && act.ip == ip) && Bounded(w, ip, t)
    ensures Bounded(Step(sites, w, act), ip, if t >= act.now + FLOOR then t else act.now + FLOOR)
  {
    var t' := if t >= act.now + FLOOR then t else act.now + FLOOR;
    AdoptedWasCopy(sites, w, act, ip, x => x <= t);
    Widened(w, ip, t, t');
    StepWithin(sites, w, act, ip, x => x <= t');
  }

  /** Exactly when a gossip step breaks a bound: it adopts the ban with so little time
      left that the 72 s floor reaches beyond the bound. */
  lemma GossipBreaksBoundIff(sites: map<string, Site>, w: World, act: Act, ip: string, t: Time)
    requires Named(sites, w) && Legal(w, act) && !(act.Local? && act.ip == ip) && Bounded(w, ip, t)
    ensures !Bounded(Step(sites, w, act), ip, t) <==> Adopted(sites, w, act, ip).Some? && act.now + FLOOR > t
  {
    AdoptedWasCopy(sites, w, act, ip, x => x <= t);
    if Adopted(sites, w, act, ip).Some? && act.now + FLOOR > t {
      AdoptedLasts(sites, w, act, ip);
    } else {
      StepWithin(sites, w, act, ip, x => x <= t);
    }
  }

  function Adopter(act: Act): string
    requires act.Deliver? || act.Pull?
  {
    if act.Deliver? then act.msg.dest else act.node
  }

  lemma AdoptedLasts(sites: map<string, Site>, w: World, act: Act, ip: string)
    requires Named(sites, w) && Legal(w, act) && Adopted(sites, w, act, ip).Some?
    ensures (act.Deliver? || act.Pull?) && Adopter(act) in Step(sites, w, act).nodes
    ensures var bans := Step(sites, w, act).nodes[Adopter(act)].bans;
            ip in bans && bans[ip].expires == Extended(Adopted(sites, w, act, ip).value, act.now)
  {
    match act
    case Deliver(msg, allow, now) =>
      AppliedRow(sites[msg.dest], allow, Active(w.nodes[msg.dest].bans, now), w.nodes[msg.dest], msg.bans, msg.sender,
                 ip, now);
    case Pull(n, peer, ips, allow, now) =>
      AppliedRow(sites[n], allow, Active(w.nodes[n].bans, now), w.nodes[n], Answer(w, peer, ips, now), peer, ip, now);
    case _ =>
  }

  // ---- over runs

  ghost predicate NoLocal(acts: seq<Act>, ip: string) {
    forall i :: 0 <= i < |acts| ==> !(acts[i].Local? && acts[i].ip == ip)
  }

  /** No copy expires after `t`, at any point of the run. */
  ghost predicate AlwaysBounded(sites: map<string, Site>, w: World, acts: seq<Act>, since: Time, ip: string, t: Time)
    requires Named(sites, w) && Runs(sites, w, acts, since)
    decreases |acts|
  {
    && Bounded(w, ip, t)
    && (acts != [] ==>
          (StepKeepsNames(sites, w, acts[0]);
           AlwaysBounded(sites, Step(sites, w, acts[0]), acts[1..], acts[0].now, ip, t)))
  }

  /** Nothing is adopted less than 72 s before `t`. */
  ghost predicate NeverLate(sites: map<string, Site>, w: World, acts: seq<Act>, since: Time, ip: string, t: Time)
    requires Named(sites, w) && Runs(sites, w, acts, since)
    decreases |acts|
  {
    acts != [] ==>
      && (Adopted(sites, w, acts[0], ip).Some? ==> acts[0].now + FLOOR <= t)
      && (StepKeepsNames(sites, w, acts[0]);
          NeverLate(sites, Step(sites, w, acts[0]), acts[1..], acts[0].now, ip, t))
  }

  /** On a run without new bans of the IP, all copies stay within a bound if and only if none
      is adopted so late that the floor reaches beyond it. */
  lemma {:induction false} RunStaysBoundedIff(sites: map<string, Site>, w: World, acts: seq<Act>, since: Time,
                                              ip: string, t: Time)
    requires Named(sites, w) && Runs(sites, w, acts, since) && NoLocal(acts, ip) && Bounded(w, ip, t)
    ensures AlwaysBounded(sites, w, acts, since, ip, t) <==> NeverLate(sites, w, acts, since, ip, t)
    decreases |acts|
  {
    if acts != [] {
      var w' := Step(sites, w, acts[0]);
      StepKeepsNames(sites, w, acts[0]);
      GossipBreaksBoundIff(sites, w, acts[0], ip, t);
      if Bounded(w', ip, t) {
        RunStaysBoundedIff(sites, w', acts[1..], acts[0].now, ip, t);
      } else {
        StartsBounded(sites, w', acts[1..], acts[0].now, ip, t);
      }
    }
  }

  lemma StartsBounded(sites: map<string, Site>, w: World, acts: seq<Act>, since: Time, ip: string, t: Time)
    requires Named(sites, w) && Runs(sites, w, acts, since)
    ensures AlwaysBounded(sites, w, acts, since, ip, t) ==> Bounded(w, ip, t)
  {
  }

  lemma {:induction false} EndsBounded(sites: map<string, Site>, w: World, acts: seq<Act>, since: Time, ip: string,
                                       t: Time)
    requires Named(sites, w) && Runs(sites, w, acts, since) && AlwaysBounded(sites, w, acts, since, ip, t)
    ensures Bounded(After(sites, w, acts, since), ip, t)
    decreases |acts|
  {
    if acts != [] {
      EndsBounded(sites, Step(sites, w, acts[0]), acts[1..], acts[0].now, ip, t);
    }
  }

  /** Then no node keeps the ban past its latest expiry at the start. */
  lemma BanEnds(sites: map<string, Site>, w: World, acts: seq<Act>, since: Time, ip: string, t: Time)
    requires Named(sites, w) && Runs(sites, w, acts, since) && NoLocal(acts, ip) && Bounded(w, ip, t)
    requires NeverLate(sites, w, acts, since, ip, t)
    ensures Bounded(After(sites, w, acts, since), ip, t)
    ensures forall n, now :: n in After(sites, w, acts, since).nodes && now >= t ==>
            ip !in Active(After(sites, w, acts, since).nodes[n].bans, now)
  {
    var w' := After(sites, w, acts, since);
    RunStaysBoundedIff(sites, w, acts, since, ip, t);
    EndsBounded(sites, w, acts, since, ip, t);
    forall n, now: Time | n in w'.nodes && now >= t ensures ip !in Active(w'.nodes[n].bans, now) {
      assert StoreWithin(w'.nodes[n], ip, x => x <= t);
    }
  }

  // ---- without that condition a ban can outlive its expiry for ever

  const GOSSIP_SECS: Time := 60.0

  /** One node adopted the ban at time `t` under the floor; the other one's copy, if any,
      is over by the next gossip round. */
  ghost predicate Alternating(sites: map<string, Site>, w: World, holder: string, other: string, ip: string, t: Time) {
    && Named(sites, w) && holder != other && holder in w.nodes && other in w.nodes
    && w.nodes[holder].bans.Keys == {ip} && w.nodes[holder].bans[ip].expires == t + FLOOR
    && w.nodes[other].bans.Keys <= {ip}
    && (ip in w.nodes[other].bans ==> w.nodes[other].bans[ip].expires <= t + GOSSIP_SECS)
  }

  /** Such a world is one local ban of 72 s away from empty tables. */
  lemma FloorBanAlternates(sites: map<string, Site>, w: World, holder: string, other: string, act: Act)
    requires Named(sites, w) && holder != other && holder in w.nodes && other in w.nodes
    requires w.nodes[holder].bans == map[] && w.nodes[other].bans == map[]
    requires act.Local? && act.node == holder && act.ttl == FLOOR && Legal(w, act)
    requires !Refuses(sites[holder], act.allow, act.ip)
    ensures Alternating(sites, Step(sites, w, act), holder, other, act.ip, act.now)
  {
  }

  lemma PulledAgain(sites: map<string, Site>, w: World, holder: string, other: string, ip: string,
                    allow: string -> bool, t: Time)
    requires Alternating(sites, w, holder, other, ip, t) && ip != "" && !Refuses(sites[other], allow, ip)
    ensures Legal(w, Pull(other, holder, [ip], allow, t + GOSSIP_SECS))
    ensures Alternating(sites, Step(sites, w, Pull(other, holder, [ip], allow, t + GOSSIP_SECS)), other, holder, ip,
                        t + GOSSIP_SECS)
    ensures ip in Active(w.nodes[holder].bans, t + GOSSIP_SECS)
  {
    var now := t + GOSSIP_SECS;
    var bans := w.nodes[holder].bans;
    assert Active(bans, now) == {ip};
    assert IsListing(bans, now, [ip]);
    var batch := Answer(w, holder, [ip], now);
    assert batch == [batch[0]] && batch[0].ip == ip && batch[0].expires == t + FLOOR;
    AppliedSingle(sites[other], allow, w.nodes[other], batch[0], holder, now);
    assert ip !in Active(w.nodes[other].bans, now);
  }

  /** A pull by a node that still has the ban changes nothing. */
  lemma PulledInVain(sites: map<string, Site>, w: World, n: string, peer: string, ip: string,
                     allow: string -> bool, now: Time)
    requires Named(sites, w) && n in w.nodes && peer in w.nodes
    requires ip in Active(w.nodes[n].bans, now) && Active(w.nodes[peer].bans, now) == {ip}
    ensures Legal(w, Pull(n, peer, [ip], allow, now)) && Step(sites, w, Pull(n, peer, [ip], allow, now)) == w
  {
    assert IsListing(w.nodes[peer].bans, now, [ip]);
    var batch := Answer(w, peer, [ip], now);
    assert batch[0].ip == ip;
    NoneTaken(sites[n], allow, Active(w.nodes[n].bans, now), w.nodes[n], batch, peer, now);
  }

  /** Both pulls of a minute: the other node adopts the rest of the ban, then the holder asks
      and has no need of it. */
  lemma MinuteKeepsAlternating(sites: map<string, Site>, w: World, holder: string, other: string, ip: string,
                               allow: string -> bool, t: Time)
    requires Alternating(sites, w, holder, other, ip, t) && ip != "" && !Refuses(sites[other], allow, ip)
    ensures var now := t + GOSSIP_SECS;
            var first, second := Pull(other, holder, [ip], allow, now), Pull(holder, other, [ip], allow, now);
            && Legal(w, first) && Named(sites, Step(sites, w, first)) && Legal(Step(sites, w, first), second)
            && Alternating(sites, Step(sites, Step(sites, w, first), second), other, holder, ip, now)
  {
    var now := t + GOSSIP_SECS;
    var first := Pull(other, holder, [ip], allow, now);
    PulledAgain(sites, w, holder, other, ip, allow, t);
    var w' := Step(sites, w, first);
    assert w'.nodes[holder] == w.nodes[holder];
    assert Active(w'.nodes[other].bans, now) == {ip};
    PulledInVain(sites, w', holder, other, ip, allow, now);
  }

  ghost predicate ActiveSomewhere(w: World, ip: string, now: Time) {
    exists n :: n in w.nodes && ip in Active(w.nodes[n].bans, now)
  }

  lemma RunsOn(sites: map<string, Site>, w: World, act: Act, rest: seq<Act>, since: Time)
    requires Named(sites, w) && Legal(w, act) && since <= act.now && Runs(sites, Step(sites, w, act), rest, act.now)
    ensures Runs(sites, w, [act] + rest, since)
    ensures After(sites, w, [act] + rest, since) == After(sites, Step(sites, w, act), rest, act.now)
    ensures End([act] + rest, since) == End(rest, act.now)
  {
    assert ([act] + rest)[1..] == rest;
  }

  ghost predicate IsPull(act: Act, n: string, peer: string, now: Time) {
    act.Pull? && act.node == n && act.peer == peer && act.now == now
  }

  /** Once a minute each of two nodes pulls from the other, and nothing else happens. */
  ghost predicate EachMinute(acts: seq<Act>, a: string, b: string, t: Time)
    decreases |acts|
  {
    acts != [] ==>
      && |acts| >= 2
      && ((IsPull(acts[0], a, b, t + GOSSIP_SECS) && IsPull(acts[1], b, a, t + GOSSIP_SECS))
          || (IsPull(acts[0], b, a, t + GOSSIP_SECS) && IsPull(acts[1], a, b, t + GOSSIP_SECS)))
      && EachMinute(acts[2..], a, b, t + GOSSIP_SECS)
  }

  lemma {:induction false} EachMinuteSwaps(acts: seq<Act>, a: string, b: string, t: Time)
    requires EachMinute(acts, a, b, t)
    ensures EachMinute(acts, b, a, t)
    decreases |acts|
  {
    if acts != [] {
      EachMinuteSwaps(acts[2..], a, b, t + GOSSIP_SECS);
    }
  }

  lemma MinuteBefore(first: Act, second: Act, rest: seq<Act>, holder: string, other: string, t: Time)
    requires IsPull(first, other, holder, t + GOSSIP_SECS) && IsPull(second, holder, other, t + GOSSIP_SECS)
    requires EachMinute(rest, other, holder, t + GOSSIP_SECS)
    ensures EachMinute([first] + ([second] + rest), holder, other, t)
  {
    EachMinuteSwaps(rest, other, holder, t + GOSSIP_SECS);
    assert ([first] + ([second] + rest))[2..] == rest;
  }

  /** Two nodes that pull from each other once a minute keep a ban alive for as many minutes
      as one likes, once one of them adopts it under the floor: each time the one whose copy
      is over adopts the rest of the other's and gets 72 s again. */
  lemma {:induction false} BanOutlives(sites: map<string, Site>, w: World, holder: string, other: string, ip: string,
                                       allow: string -> bool, t: Time, rounds: nat) returns (acts: seq<Act>)
    requires Alternating(sites, w, holder, other, ip, t) && ip != ""
    requires !Refuses(sites[holder], allow, ip) && !Refuses(sites[other], allow, ip)
    ensures Runs(sites, w, acts, t) && |acts| == 2 * rounds && EachMinute(acts, holder, other, t)
    ensures End(acts, t) == t + GOSSIP_SECS * rounds as real
    ensures ActiveSomewhere(After(sites, w, acts, t), ip, End(acts, t))
    decreases rounds
  {
    if rounds == 0 {
      acts := [];
      assert ip in Active(w.nodes[holder].bans, t);
    } else {
      var now := t + GOSSIP_SECS;
      var first, second := Pull(other, holder, [ip], allow, now), Pull(holder, other, [ip], allow, now);
      MinuteKeepsAlternating(sites, w, holder, other, ip, allow, t);
      var w' := Step(sites, w, first);
      var rest := BanOutlives(sites, Step(sites, w', second), other, holder, ip, allow, now, rounds - 1);
      RunsOn(sites, w', second, rest, now);
      RunsOn(sites, w, first, [second] + rest, t);
      MinuteBefore(first, second, rest, holder, other, t);
      acts := [first] + ([second] + rest);
    }
  }

  // ---- how far a ban travels

  /** Nobody lifts the ban, or bans the IP again for less than until `until`. */
  ghost predicate Leaves(act: Act, ip: string, until: Time) {
    && act.now < until
    && (act.Unban? ==> act.ip != ip)
    && (act.Local? && act.ip == ip ==> act.now + act.ttl >= until)
  }

  ghost predicate AllLeave(acts: seq<Act>, ip: string, until: Time)
    decreases |acts|
  {
    acts != [] ==> Leaves(acts[0], ip, until) && AllLeave(acts[1..], ip, until)
  }

  /** Each node of the path, in turn, pulls from the one before it and does not refuse. */
  ghost predicate Carries(sites: map<string, Site>, acts: seq<Act>, path: seq<string>, ip: string)
    decreases |acts|
  {
    |path| == 1
    || (|path| > 1 && acts != []
        && (Carries(sites, acts[1..], path, ip)
            || (acts[0].Pull? && acts[0].peer == path[0] && acts[0].node == path[1] && path[1] in sites
                && !Refuses(sites[path[1]], acts[0].allow, ip) && Carries(sites, acts[1..], path[1..], ip))))
  }

  /** No copy of the ban that is still running ends before `until`. */
  ghost predicate Lasting(w: World, ip: string, now: Time, until: Time) {
    Within(w, ip, x => x <= now || x >= until)
  }

  lemma LastingLater(w: World, ip: string, since: Time, now: Time, until: Time)
    requires Lasting(w, ip, since, until) && since <= now
    ensures Lasting(w, ip, now, until)
  {
    var before, after := (x: Time) => x <= since || x >= until, (x: Time) => x <= now || x >= until;
    assert Within(w, ip, before) ==> Within(w, ip, after);
  }

  lemma LastingStep(sites: map<string, Site>, w: World, act: Act, ip: string, since: Time, until: Time)
    requires Named(sites, w) && Legal(w, act) && since <= act.now && Lasting(w, ip, since, until)
    requires Leaves(act, ip, until)
    ensures Lasting(Step(sites, w, act), ip, act.now, until)
  {
    LastingLater(w, ip, since, act.now, until);
    AdoptedWasCopy(sites, w, act, ip, x => x <= act.now || x >= until);
    StepWithin(sites, w, act, ip, x => x <= act.now || x >= until);
  }

  ghost predicate Holds(w: World, n: string, ip: string, until: Time) {
    n in w.nodes && ip in w.nodes[n].bans && w.nodes[n].bans[ip].expires >= until
  }

  lemma HoldsStep(sites: map<string, Site>, w: World, act: Act, n: string, ip: string, until: Time)
    requires Named(sites, w) && Legal(w, act) && Leaves(act, ip, until) && Holds(w, n, ip, until)
    ensures Holds(Step(sites, w, act), n, ip, until)
  {
    if act.Deliver? && act.msg.dest == n {
      ActiveStays(sites[n], act.allow, w.nodes[n], act.msg.bans, act.msg.sender, act.now, ip);
    } else if act.Pull? && act.node == n {
      ActiveStays(sites[n], act.allow, w.nodes[n], Answer(w, act.peer, act.ips, act.now), act.peer, act.now, ip);
    }
  }

  lemma PullHolds(sites: map<string, Site>, w: World, act: Act, ip: string, since: Time, until: Time)
    requires Named(sites, w) && Legal(w, act) && act.Pull? && ip != "" && !Refuses(sites[act.node], act.allow, ip)
    requires Holds(w, act.peer, ip, until) && since <= act.now && Lasting(w, ip, since, until) && Leaves(act, ip, until)
    ensures Holds(Step(sites, w, act), act.node, ip, until)
  {
    var bans := w.nodes[act.peer].bans;
    var batch := Answer(w, act.peer, act.ips, act.now);
    assert ip in act.ips;
    var i :| 0 <= i < |act.ips| && act.ips[i] == ip;
    assert batch[i].ip == ip && batch[i].expires == bans[ip].expires;
    AppliedActivates(sites[act.node], act.allow, w.nodes[act.node], batch, act.peer, act.now, i);
    LastingStep(sites, w, act, ip, since, until);
    assert StoreWithin(Step(sites, w, act).nodes[act.node], ip, x => x <= act.now || x >= until);
  }

  // ---- pushes

  /** A ban that was accepted here, under neither the cluster's nor the community's name, is
      queued last on a clustered node. */
  lemma LocalQueues(sites: map<string, Site>, w: World, act: Act)
    requires Named(sites, w) && Legal(w, act) && act.Local? && !Refuses(sites[act.node], act.allow, act.ip)
    ensures Step(sites, w, act).nodes[act.node].outbox
         == w.nodes[act.node].outbox
            + (if sites[act.node].clustered && act.via != "community" && !("cluster" <= act.via)
               then [Entry(act.ip, act.rule, act.reason, act.now + act.ttl, act.node)] else [])
  {
  }

  /** What is on its way after a push, an answer or a re-push: what was before, and one message
      for each addressee. */
  lemma SentAre(sites: map<string, Site>, w: World, act: Act, m: Msg)
    requires Named(sites, w) && Legal(w, act)
    ensures act.Push? ==>
              && (m in Step(sites, w, act).flight <==>
                    || m in w.flight
                    || (m.dest in act.dests && m.sender == act.node && m.bans == w.nodes[act.node].outbox))
              && Step(sites, w, act).nodes[act.node].outbox == []
    ensures act.Serve? ==>
              (m in Step(sites, w, act).flight <==>
                 m in w.flight || m == Msg(act.dest, act.node, Answer(w, act.node, act.ips, act.now)))
    ensures act.Reshare? ==>
              (m in Step(sites, w, act).flight <==>
                 || m in w.flight
                 || (m.dest in act.dests && m.sender == act.node
                     && m.bans == Own(act.node, Answer(w, act.node, act.ips, act.now))))
  {
  }

  /** Whatever message arrives, each of its bans that has not expired and is not refused is
      active afterwards. */
  lemma DeliveredActivates(sites: map<string, Site>, w: World, act: Act, i: nat)
    requires Named(sites, w) && Legal(w, act) && act.Deliver? && i < |act.msg.bans|
    requires act.msg.bans[i].ip != "" && act.msg.bans[i].expires > act.now
    requires !Refuses(sites[act.msg.dest], act.allow, act.msg.bans[i].ip)
    ensures act.msg.bans[i].ip in Active(Step(sites, w, act).nodes[act.msg.dest].bans, act.now)
  {
    AppliedActivates(sites[act.msg.dest], act.allow, w.nodes[act.msg.dest], act.msg.bans, act.msg.sender, act.now, i);
  }

  /** A ban made on a clustered node reaches a peer by the next push, if the message arrives
      before the ban ends. */
  lemma PushTravels(sites: map<string, Site>, w: World, local: Act, dests: set<string>, d: string,
                    allow: string -> bool, now: Time)
    requires Named(sites, w) && Legal(w, local) && local.Local? && !Refuses(sites[local.node], local.allow, local.ip)
    requires sites[local.node].clustered && local.via != "community" && d in dests && d in w.nodes && local.ip != ""
    requires now < local.now + local.ttl && !Refuses(sites[d], allow, local.ip)
    ensures var w1 := Step(sites, w, local);
            && Named(sites, w1) && Legal(w1, Push(local.node, dests, now))
            && var w2 := Step(sites, w1, Push(local.node, dests, now));
               var m := Msg(d, local.node, w1.nodes[local.node].outbox);
               && Named(sites, w2) && Legal(w2, Deliver(m, allow, now))
               && local.ip in Active(Step(sites, w2, Deliver(m, allow, now)).nodes[d].bans, now)
  {
    var w1 := Step(sites, w, local);
    var push := Push(local.node, dests, now);
    LocalQueues(sites, w, local);
    var m := Msg(d, local.node, w1.nodes[local.node].outbox);
    SentAre(sites, w1, push, m);
    var last := |m.bans| - 1;
    assert m.bans[last] == Entry(local.ip, local.rule, local.reason, local.now + local.ttl, local.node);
    DeliveredActivates(sites, Step(sites, w1, push), Deliver(m, allow, now), last);
  }

  // ---- pulls along a path

  /** A ban reaches the end of every path of nodes that pull it in turn, whatever else the
      mesh does meanwhile, if no running copy of it ends before that. */
  lemma {:induction false} BanTravels(sites: map<string, Site>, w: World, acts: seq<Act>, since: Time,
                                      path: seq<string>, ip: string, until: Time)
    requires Named(sites, w) && Runs(sites, w, acts, since) && |path| > 0 && ip != "" && Carries(sites, acts, path, ip)
    requires AllLeave(acts, ip, until)
    requires Holds(w, path[0], ip, until) && Lasting(w, ip, since, until) && since < until
    ensures Holds(After(sites, w, acts, since), path[|path| - 1], ip, until)
    ensures path[|path| - 1] in After(sites, w, acts, since).nodes
    ensures ip in Active(After(sites, w, acts, since).nodes[path[|path| - 1]].bans, End(acts, since))
    decreases |acts|
  {
    if acts != [] {
      var act, w' := acts[0], Step(sites, w, acts[0]);
      LastingStep(sites, w, act, ip, since, until);
      if |path| == 1 || Carries(sites, acts[1..], path, ip) {
        HoldsStep(sites, w, act, path[0], ip, until);
        BanTravels(sites, w', acts[1..], act.now, path, ip, until);
      } else {
        PullHolds(sites, w, act, ip, since, until);
        BanTravels(sites, w', acts[1..], act.now, path[1..], ip, until);
      }
    }
  }
}
