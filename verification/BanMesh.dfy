/** Ban gossip over a whole mesh: pushes, pulls and re-pushes travel as messages that may
    be delayed, reordered, repeated or lost; each node handles one thing at a time. */
module BanMesh {
  import opened Collections
  import opened Windows
  import opened Bans
  import opened Edge
  import opened BanGossip

  datatype Msg = Msg(dest: string, sender: string, bans: seq<Entry>)

  /** A ban that a node accepted outside the cluster path. */
  datatype Made = Made(node: string, ban: Entry, via: string)

  datatype World = World(nodes: map<string, Store>, flight: set<Msg>, made: set<Made>)

  datatype Act =
    | Local(node: string, allow: string -> bool, ip: string, rule: string, reason: string, ttl: Time, via: string,
            now: Time)
    | Unban(node: string, ip: string, now: Time)
    | Expire(node: string, now: Time)
    | Push(node: string, dests: set<string>, now: Time)
    | Serve(node: string, dest: string, ips: seq<string>, now: Time)
    | Reshare(node: string, dests: set<string>, ips: seq<string>, now: Time)
    | Deliver(msg: Msg, allow: string -> bool, now: Time)
    | Pull(node: string, peer: string, ips: seq<string>, allow: string -> bool, now: Time)
    | Lose(msg: Msg, now: Time)
    | Restart(node: string, now: Time)

  /** Every node is known by its own name. */
  ghost predicate Named(sites: map<string, Site>, w: World) {
    sites.Keys == w.nodes.Keys && forall n :: n in sites ==> sites[n].name == n && n != ""
  }

  /** Bans are made under "auto", "manual" or "community"; a pull answers with a listing. */
  ghost predicate Legal(w: World, act: Act) {
    match act
    case Local(n, _, _, _, _, _, via, _) => n in w.nodes && !(CLUSTER <= via)
    case Unban(n, _, _) => n in w.nodes
    case Expire(n, _) => n in w.nodes
    case Push(n, _, _) => n in w.nodes
    case Serve(n, _, ips, now) => n in w.nodes && IsListing(w.nodes[n].bans, now, ips)
    case Reshare(n, _, ips, now) => n in w.nodes && IsListing(w.nodes[n].bans, now, ips)
    case Deliver(msg, _, _) => msg in w.flight && msg.dest in w.nodes
    case Pull(n, peer, ips, _, now) => n in w.nodes && peer in w.nodes && IsListing(w.nodes[peer].bans, now, ips)
    case Lose(_, _) => true
    case Restart(n, _) => n in w.nodes
  }

  function Sent(dests: set<string>, sender: string, batch: seq<Entry>): set<Msg> {
    set d | d in dests :: Msg(d, sender, batch)
  }

  lemma Listed(bans: map<string, Ban>, now: Time, ips: seq<string>)
    requires IsListing(bans, now, ips)
    ensures forall i :: 0 <= i < |ips| ==> ips[i] in bans && bans[ips[i]].expires > now
  {
    assert forall i :: 0 <= i < |ips| ==> ips[i] in ips;
  }

  ghost function Answer(w: World, n: string, ips: seq<string>, now: Time): seq<Entry>
    requires n in w.nodes && IsListing(w.nodes[n].bans, now, ips)
  {
    Listed(w.nodes[n].bans, now, ips);
    Blocklist(n, w.nodes[n].bans, ips)
  }

  ghost function Step(sites: map<string, Site>, w: World, act: Act): World
    requires Named(sites, w) && Legal(w, act)
  {
    match act
    case Local(n, allow, ip, rule, reason, ttl, via, now) =>
      var (s, ok) := Banned(sites[n], allow, w.nodes[n], ip, rule, reason, ttl, via, now);
      World(w.nodes[n := s], w.flight, if ok then w.made + {Made(n, Entry(ip, rule, reason, now + ttl, n), via)}
            else w.made)
    case Unban(n, ip, _) => w.(nodes := w.nodes[n := w.nodes[n].(bans := w.nodes[n].bans - {ip})])
    case Expire(n, now) => w.(nodes := w.nodes[n := w.nodes[n].(bans := Kept(w.nodes[n].bans, now))])
    case Push(n, dests, _) =>
      w.(nodes := w.nodes[n := w.nodes[n].(outbox := [])], flight := w.flight + Sent(dests, n, w.nodes[n].outbox))
    case Serve(n, dest, ips, now) => w.(flight := w.flight + {Msg(dest, n, Answer(w, n, ips, now))})
    case Reshare(n, dests, ips, now) => w.(flight := w.flight + Sent(dests, n, Own(n, Answer(w, n, ips, now))))
    case Deliver(msg, allow, now) =>
      w.(nodes := w.nodes[msg.dest := Applied(sites[msg.dest], allow, w.nodes[msg.dest], msg.bans, msg.sender, now)])
    case Pull(n, peer, ips, allow, now) =>
      w.(nodes := w.nodes[n := Applied(sites[n], allow, w.nodes[n], Answer(w, peer, ips, now), peer, now)])
    case Lose(msg, _) => w.(flight := w.flight - {msg})
    case Restart(n, _) => w.(nodes := w.nodes[n := w.nodes[n].(outbox := [])])
  }

  /** Nobody joins, leaves or changes its name in a run. */
  lemma StepKeepsNames(sites: map<string, Site>, w: World, act: Act)
    requires Named(sites, w) && Legal(w, act)
    ensures Named(sites, Step(sites, w, act))
  {
  }

  /** A run: each act is legal where it happens, and time does not go back. */
  ghost predicate Runs(sites: map<string, Site>, w: World, acts: seq<Act>, since: Time)
    requires Named(sites, w)
    decreases |acts|
  {
    acts != [] ==>
      Legal(w, acts[0]) && since <= acts[0].now
      && (StepKeepsNames(sites, w, acts[0]); Runs(sites, Step(sites, w, acts[0]), acts[1..], acts[0].now))
  }

  ghost function After(sites: map<string, Site>, w: World, acts: seq<Act>, since: Time): (r: World)
    requires Named(sites, w) && Runs(sites, w, acts, since)
    ensures Named(sites, r)
    decreases |acts|
  {
    if acts == [] then w
    else
      StepKeepsNames(sites, w, acts[0]);
      After(sites, Step(sites, w, acts[0]), acts[1..], acts[0].now)
  }

  /** When the run ends. */
  function End(acts: seq<Act>, since: Time): Time
    decreases |acts|
  {
    if acts == [] then since else End(acts[1..], acts[0].now)
  }

  // ---- provenance

  /** The named node accepted a ban of the IP that was not the cluster's. */
  ghost predicate Vouched(made: set<Made>, origin: string, ip: string) {
    exists m :: m in made && m.node == origin && m.ban.ip == ip
  }

  ghost predicate BatchVouched(made: set<Made>, batch: seq<Entry>) {
    forall i :: 0 <= i < |batch| ==> batch[i].origin != "" && Vouched(made, batch[i].origin, batch[i].ip)
  }

  ghost predicate RowsVouched(made: set<Made>, n: string, bans: map<string, Ban>) {
    forall ip :: ip in bans ==> Origin(n, bans[ip]) != "" && Vouched(made, Origin(n, bans[ip]), ip)
  }

  ghost predicate MadeHere(made: set<Made>, n: string, e: Entry) {
    exists m :: m in made && m.node == n && m.ban == e && PassesOn(m.via)
  }

  /** What is queued was made here, and is not the community's. */
  ghost predicate QueueOwn(made: set<Made>, n: string, outbox: seq<Entry>) {
    forall i :: 0 <= i < |outbox| ==> outbox[i].origin == n && MadeHere(made, n, outbox[i])
  }

  ghost predicate Provenance(w: World) {
    && (forall n :: n in w.nodes ==> RowsVouched(w.made, n, w.nodes[n].bans))
    && (forall n :: n in w.nodes ==> QueueOwn(w.made, n, w.nodes[n].outbox))
    && (forall m :: m in w.flight ==> BatchVouched(w.made, m.bans))
  }

  lemma AppliedVouched(made: set<Made>, site: Site, allow: string -> bool, s: Store, batch: seq<Entry>,
                       sender: string, now: Time)
    requires RowsVouched(made, site.name, s.bans) && BatchVouched(made, batch)
    ensures RowsVouched(made, site.name, Applied(site, allow, s, batch, sender, now).bans)
  {
    var have, after := Active(s.bans, now), Applied(site, allow, s, batch, sender, now).bans;
    forall ip | ip in after
      ensures Origin(site.name, after[ip]) != "" && Vouched(made, Origin(site.name, after[ip]), ip)
    {
      AppliedRow(site, allow, have, s, batch, sender, ip, now);
      RowVouched(made, site, allow, have, s.bans, after, batch, sender, ip, now);
    }
  }

  lemma RowVouched(made: set<Made>, site: Site, allow: string -> bool, have: set<string>, before: map<string, Ban>,
                   after: map<string, Ban>, batch: seq<Entry>, sender: string, ip: string, now: Time)
    requires RowsVouched(made, site.name, before) && BatchVouched(made, batch)
    requires ComesFrom(site, allow, have, before, after, batch, sender, ip, now) && ip in after
    ensures Origin(site.name, after[ip]) != "" && Vouched(made, Origin(site.name, after[ip]), ip)
  {
    var k := Last(site, allow, have, batch, ip, now);
    if ip in before {
      assert after[ip].bannedBy == before[ip].bannedBy;
    } else if k >= 0 {
      var i :| 0 <= i <= k && batch[i].ip == ip && after[ip].bannedBy == CLUSTER_COLON + Source(batch[i], sender);
      OriginOfRelayed(site.name, after[ip], batch[i].origin);
    }
  }

  lemma OriginOfRelayed(name: string, row: Ban, origin: string)
    requires row.bannedBy == CLUSTER_COLON + origin
    ensures Origin(name, row) == origin
  {
  }

  lemma AnswerVouched(made: set<Made>, n: string, bans: map<string, Ban>, ips: seq<string>, now: Time)
    requires RowsVouched(made, n, bans) && IsListing(bans, now, ips)
    ensures forall i :: 0 <= i < |ips| ==> ips[i] in bans
    ensures BatchVouched(made, Blocklist(n, bans, ips)) && BatchVouched(made, Own(n, Blocklist(n, bans, ips)))
  {
    Listed(bans, now, ips);
    OwnIsPart(n, Blocklist(n, bans, ips));
  }

  lemma VouchedGrows(made: set<Made>, made': set<Made>, origin: string, ip: string)
    requires Vouched(made, origin, ip) && made <= made'
    ensures Vouched(made', origin, ip)
  {
    var m :| m in made && m.node == origin && m.ban.ip == ip;
    assert m in made';
  }

  lemma RowsGrow(made: set<Made>, made': set<Made>, n: string, bans: map<string, Ban>)
    requires RowsVouched(made, n, bans) && made <= made'
    ensures RowsVouched(made', n, bans)
  {
    forall ip | ip in bans ensures Vouched(made', Origin(n, bans[ip]), ip) {
      VouchedGrows(made, made', Origin(n, bans[ip]), ip);
    }
  }

  lemma QueueGrows(made: set<Made>, made': set<Made>, n: string, outbox: seq<Entry>)
    requires QueueOwn(made, n, outbox) && made <= made'
    ensures QueueOwn(made', n, outbox)
  {
    forall i | 0 <= i < |outbox| ensures outbox[i].origin == n && MadeHere(made', n, outbox[i]) {
      var e := outbox[i];
      assert MadeHere(made, n, e);
      var m :| m in made && m.node == n && m.ban == e && PassesOn(m.via);
      assert m in made';
    }
  }

  lemma BatchGrows(made: set<Made>, made': set<Made>, batch: seq<Entry>)
    requires BatchVouched(made, batch) && made <= made'
    ensures BatchVouched(made', batch)
  {
    forall i | 0 <= i < |batch| ensures batch[i].origin != "" && Vouched(made', batch[i].origin, batch[i].ip) {
      VouchedGrows(made, made', batch[i].origin, batch[i].ip);
    }
  }

  lemma MarkIsCluster(s: string)
    ensures CLUSTER_COLON <= s ==> CLUSTER <= s
  {
    assert CLUSTER_COLON[..|CLUSTER|] == CLUSTER;
    if CLUSTER_COLON <= s {
      assert s[..|CLUSTER|] == CLUSTER_COLON[..|CLUSTER|];
    }
  }

  lemma NotRelayed(name: string, row: Ban)
    requires !(CLUSTER <= row.bannedBy)
    ensures Origin(name, row) == name
  {
    MarkIsCluster(row.bannedBy);
  }

  lemma LocalRows(made: set<Made>, name: string, bans: map<string, Ban>, ip: string, row: Ban)
    requires RowsVouched(made, name, bans) && Vouched(made, name, ip) && name != "" && !(CLUSTER <= row.bannedBy)
    ensures RowsVouched(made, name, Upserted(bans, ip, row))
  {
    NotRelayed(name, row);
  }

  lemma LocalQueue(made: set<Made>, name: string, outbox: seq<Entry>, m: Made)
    requires QueueOwn(made, name, outbox) && m in made && m.node == name && m.ban.origin == name && PassesOn(m.via)
    ensures QueueOwn(made, name, outbox + [m.ban])
  {
    assert MadeHere(made, name, m.ban);
  }

  lemma LocalVouched(made: set<Made>, site: Site, allow: string -> bool, s: Store, ip: string, rule: string,
                     reason: string,
                     ttl: Time, via: string, now: Time)
    requires RowsVouched(made, site.name, s.bans) && QueueOwn(made, site.name, s.outbox) && site.name != ""
    requires !(CLUSTER <= via)
    ensures var (s', ok) := Banned(site, allow, s, ip, rule, reason, ttl, via, now);
            var made' := if ok then made + {Made(site.name, Entry(ip, rule, reason, now + ttl, site.name), via)}
              else made;
            RowsVouched(made', site.name, s'.bans) && QueueOwn(made', site.name, s'.outbox)
  {
    if !Refuses(site, allow, ip) {
      var m := Made(site.name, Entry(ip, rule, reason, now + ttl, site.name), via);
      var made' := made + {m};
      RowsGrow(made, made', site.name, s.bans);
      QueueGrows(made, made', site.name, s.outbox);
      assert m in made' && Vouched(made', site.name, ip);
      LocalRows(made', site.name, s.bans, ip, Ban(rule, Clip(reason, REASON_LIMIT), now, now + ttl, via));
      if PassesOn(via) {
        LocalQueue(made', site.name, s.outbox, m);
      }
    }
  }

  lemma NodeKeeps(w: World, n: string, s: Store, made: set<Made>)
    requires Provenance(w) && n in w.nodes && w.made <= made
    requires RowsVouched(made, n, s.bans) && QueueOwn(made, n, s.outbox)
    ensures Provenance(World(w.nodes[n := s], w.flight, made))
  {
    forall k | k in w.nodes ensures RowsVouched(made, k, w.nodes[k].bans) && QueueOwn(made, k, w.nodes[k].outbox) {
      RowsGrow(w.made, made, k, w.nodes[k].bans);
      QueueGrows(w.made, made, k, w.nodes[k].outbox);
    }
    forall m | m in w.flight ensures BatchVouched(made, m.bans) {
      BatchGrows(w.made, made, m.bans);
    }
  }

  lemma SentKeeps(w: World, msgs: set<Msg>)
    requires Provenance(w) && forall m :: m in msgs ==> BatchVouched(w.made, m.bans)
    ensures Provenance(w.(flight := w.flight + msgs))
  {
  }

  lemma QueueVouched(made: set<Made>, n: string, outbox: seq<Entry>)
    requires QueueOwn(made, n, outbox) && n != ""
    ensures BatchVouched(made, outbox)
  {
    forall i | 0 <= i < |outbox| ensures outbox[i].origin != "" && Vouched(made, outbox[i].origin, outbox[i].ip) {
      var e := outbox[i];
      assert MadeHere(made, n, e);
      var m :| m in made && m.node == n && m.ban == e && PassesOn(m.via);
      assert m.ban.ip == e.ip;
    }
  }

  lemma AppliedOutbox(site: Site, allow: string -> bool, s: Store, batch: seq<Entry>, sender: string, now: Time)
    ensures Applied(site, allow, s, batch, sender, now).outbox == s.outbox
  {
    AppliedRow(site, allow, Active(s.bans, now), s, batch, sender, "", now);
  }

  lemma AppliedKeeps(sites: map<string, Site>, w: World, n: string, allow: string -> bool, batch: seq<Entry>,
                     sender: string, now: Time)
    requires Named(sites, w) && n in w.nodes && Provenance(w) && BatchVouched(w.made, batch)
    ensures Provenance(w.(nodes := w.nodes[n := Applied(sites[n], allow, w.nodes[n], batch, sender, now)]))
  {
    AppliedVouched(w.made, sites[n], allow, w.nodes[n], batch, sender, now);
    AppliedOutbox(sites[n], allow, w.nodes[n], batch, sender, now);
    NodeKeeps(w, n, Applied(sites[n], allow, w.nodes[n], batch, sender, now), w.made);
  }

  lemma PushKeeps(sites: map<string, Site>, w: World, n: string, dests: set<string>, now: Time)
    requires Named(sites, w) && n in w.nodes && Provenance(w)
    ensures Provenance(Step(sites, w, Push(n, dests, now)))
  {
    QueueVouched(w.made, n, w.nodes[n].outbox);
    SentKeeps(w, Sent(dests, n, w.nodes[n].outbox));
    NodeKeeps(w.(flight := w.flight + Sent(dests, n, w.nodes[n].outbox)), n, w.nodes[n].(outbox := []), w.made);
  }

  lemma AnswerKeeps(sites: map<string, Site>, w: World, act: Act)
    requires Named(sites, w) && Legal(w, act) && Provenance(w) && (act.Serve? || act.Reshare?)
    ensures Provenance(Step(sites, w, act))
  {
    AnswerVouched(w.made, act.node, w.nodes[act.node].bans, act.ips, act.now);
    var answer := Answer(w, act.node, act.ips, act.now);
    if act.Serve? {
      SentKeeps(w, {Msg(act.dest, act.node, answer)});
    } else {
      SentKeeps(w, Sent(act.dests, act.node, Own(act.node, answer)));
    }
  }

  lemma ForgetKeeps(sites: map<string, Site>, w: World, act: Act)
    requires Named(sites, w) && Legal(w, act) && Provenance(w) && (act.Unban? || act.Expire? || act.Restart?)
    ensures Provenance(Step(sites, w, act))
  {
    NodeKeeps(w, act.node, Step(sites, w, act).nodes[act.node], w.made);
  }

  lemma LocalKeeps(sites: map<string, Site>, w: World, act: Act)
    requires Named(sites, w) && Legal(w, act) && Provenance(w) && act.Local?
    ensures Provenance(Step(sites, w, act))
  {
    var Local(n, allow, ip, rule, reason, ttl, via, now) := act;
    LocalVouched(w.made, sites[n], allow, w.nodes[n], ip, rule, reason, ttl, via, now);
    NodeKeeps(w, n, Step(sites, w, act).nodes[n], Step(sites, w, act).made);
  }

  lemma PullKeeps(sites: map<string, Site>, w: World, act: Act)
    requires Named(sites, w) && Legal(w, act) && Provenance(w) && act.Pull?
    ensures Provenance(Step(sites, w, act))
  {
    var Pull(n, peer, ips, allow, now) := act;
    AnswerVouched(w.made, peer, w.nodes[peer].bans, ips, now);
    AppliedKeeps(sites, w, n, allow, Answer(w, peer, ips, now), peer, now);
  }

  /** Every step keeps provenance, in any interleaving of local bans, unbans, expiry,
      pushes, pulls, re-pushes, losses and restarts. */
  lemma StepKeepsProvenance(sites: map<string, Site>, w: World, act: Act)
    requires Named(sites, w) && Legal(w, act) && Provenance(w)
    ensures Provenance(Step(sites, w, act))
  {
    match act
    case Local(_, _, _, _, _, _, _, _) => LocalKeeps(sites, w, act);
    case Push(n, dests, now) => PushKeeps(sites, w, n, dests, now);
    case Deliver(msg, allow, now) => AppliedKeeps(sites, w, msg.dest, allow, msg.bans, msg.sender, now);
    case Pull(_, _, _, _, _) => PullKeeps(sites, w, act);
    case Serve(_, _, _, _) => AnswerKeeps(sites, w, act);
    case Reshare(_, _, _, _) => AnswerKeeps(sites, w, act);
    case Lose(_, _) =>
    case _ => ForgetKeeps(sites, w, act);
  }

  /** In every reachable world, every row and every ban on the wire names a node that
      accepted a ban of that IP outside the cluster path, and every queued ban was made by
      its own node and is not the community's. */
  lemma {:induction false} RunKeepsProvenance(sites: map<string, Site>, w: World, acts: seq<Act>, since: Time)
    requires Named(sites, w) && Runs(sites, w, acts, since) && Provenance(w)
    ensures Provenance(After(sites, w, acts, since))
    decreases |acts|
  {
    if acts != [] {
      StepKeepsProvenance(sites, w, acts[0]);
      RunKeepsProvenance(sites, Step(sites, w, acts[0]), acts[1..], acts[0].now);
    }
  }

  /** What is recorded as made really was: only a local act adds to the record. */
  lemma MadeOnlyLocally(sites: map<string, Site>, w: World, act: Act, m: Made)
    requires Named(sites, w) && Legal(w, act)
    ensures m in Step(sites, w, act).made - w.made ==>
              act.Local? && m == Made(act.node, Entry(act.ip, act.rule, act.reason, act.now + act.ttl, act.node),
                                      act.via)
              && !Refuses(sites[act.node], act.allow, act.ip)
  {
  }

  /** Before the first ban nothing needs a voucher. */
  lemma EmptyIsVouched(w: World)
    requires w.flight == {} && forall n :: n in w.nodes ==> w.nodes[n] == Store(map[], [])
    ensures Provenance(w) && Attributed(w)
  {
  }

  // ---- what `banned_by` can be

  /** The mark of the cluster path is "cluster:" with a name; no other ban has such a mark. */
  ghost predicate WellMarked(bans: map<string, Ban>) {
    forall ip :: ip in bans && CLUSTER <= bans[ip].bannedBy ==> CLUSTER_COLON <= bans[ip].bannedBy
  }

  ghost predicate Attributed(w: World) {
    forall n :: n in w.nodes ==> WellMarked(w.nodes[n].bans)
  }

  lemma AppliedMarked(site: Site, allow: string -> bool, s: Store, batch: seq<Entry>, sender: string, now: Time)
    requires WellMarked(s.bans)
    ensures WellMarked(Applied(site, allow, s, batch, sender, now).bans)
  {
    var after := Applied(site, allow, s, batch, sender, now).bans;
    forall ip | ip in after && CLUSTER <= after[ip].bannedBy ensures CLUSTER_COLON <= after[ip].bannedBy {
      AppliedRow(site, allow, Active(s.bans, now), s, batch, sender, ip, now);
    }
  }

  lemma StepKeepsMarks(sites: map<string, Site>, w: World, act: Act)
    requires Named(sites, w) && Legal(w, act) && Attributed(w)
    ensures Attributed(Step(sites, w, act))
  {
    match act
    case Deliver(msg, allow, now) =>
      AppliedMarked(sites[msg.dest], allow, w.nodes[msg.dest], msg.bans, msg.sender, now);
    case Pull(n, peer, ips, allow, now) =>
      AppliedMarked(sites[n], allow, w.nodes[n], Answer(w, peer, ips, now), peer, now);
    case _ =>
  }

  lemma {:induction false} RunKeepsAttributed(sites: map<string, Site>, w: World, acts: seq<Act>, since: Time)
    requires Named(sites, w) && Runs(sites, w, acts, since) && Attributed(w)
    ensures Attributed(After(sites, w, acts, since))
    decreases |acts|
  {
    if acts != [] {
      StepKeepsMarks(sites, w, acts[0]);
      RunKeepsAttributed(sites, Step(sites, w, acts[0]), acts[1..], acts[0].now);
    }
  }

  /** A row with the mark of the cluster path names, after "cluster:", a node that accepted a
      ban of the IP. */
  ghost predicate MarksNameMakers(w: World, n: string)
    requires n in w.nodes
  {
    var bans := w.nodes[n].bans;
    forall ip :: ip in bans && CLUSTER <= bans[ip].bannedBy ==>
      && CLUSTER_COLON <= bans[ip].bannedBy && bans[ip].bannedBy[|CLUSTER_COLON|..] != ""
      && Vouched(w.made, bans[ip].bannedBy[|CLUSTER_COLON|..], ip)
  }

  /** On every run each mark of the cluster path names somebody who made the ban. */
  lemma RunKeepsMarks(sites: map<string, Site>, w: World, acts: seq<Act>, since: Time, n: string)
    requires Named(sites, w) && Runs(sites, w, acts, since) && Provenance(w) && Attributed(w)
    requires n in After(sites, w, acts, since).nodes
    ensures MarksNameMakers(After(sites, w, acts, since), n)
  {
    var w' := After(sites, w, acts, since);
    RunKeepsProvenance(sites, w, acts, since);
    RunKeepsAttributed(sites, w, acts, since);
    assert WellMarked(w'.nodes[n].bans) && RowsVouched(w'.made, n, w'.nodes[n].bans);
  }

  /** A node that lifted its own ban, and pulls it back from a peer that still relays it,
      holds it as relayed by itself. */
  lemma OwnBanComesBack(sites: map<string, Site>, w: World, n: string, peer: string, ips: seq<string>,
                        allow: string -> bool, now: Time, ip: string)
    requires Named(sites, w) && Legal(w, Pull(n, peer, ips, allow, now)) && ip != "" && !Refuses(sites[n], allow, ip)
    requires ip !in w.nodes[n].bans && ip in Active(w.nodes[peer].bans, now)
    requires Origin(peer, w.nodes[peer].bans[ip]) == n
    ensures var bans := Step(sites, w, Pull(n, peer, ips, allow, now)).nodes[n].bans;
            ip in Active(bans, now) && bans[ip].bannedBy == CLUSTER_COLON + n
  {
    var batch := Answer(w, peer, ips, now);
    assert ip in ips;
    var i :| 0 <= i < |ips| && ips[i] == ip;
    assert batch[i].ip == ip && batch[i].origin == n;
    AppliedActivates(sites[n], allow, w.nodes[n], batch, peer, now, i);
    AppliedRow(sites[n], allow, Active(w.nodes[n].bans, now), w.nodes[n], batch, peer, ip, now);
    assert forall k :: 0 <= k < |batch| && batch[k].ip == ip ==> k == i;
  }
}
