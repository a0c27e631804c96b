/** What a leaf pushes again (secwatch/cluster.py): exactly when it is the bans that the node
    made and passes on, over every run of its ban table, and of a mesh. */
module Reshares {
  import opened Collections
  import opened Windows
  import opened Bans
  import opened Edge
  import opened BanTables
  import opened BanGossip
  import opened BanMesh
  import opened ClusterNodes

  // ---- the last accepted ban of each IP

  /** What was said when the IP was last banned, and who banned it. */
  datatype Latest = Latest(rule: string, reason: string, expires: Time, via: string)

  predicate Accepted(site: Site, op: TableOp) { op.AddBan? && !Refuses(site, op.allow, op.ip) }

  function Noted(site: Site, last: map<string, Latest>, op: TableOp): map<string, Latest> {
    if Accepted(site, op) then
      last[op.ip := Latest(op.rule, Clip(op.reason, REASON_LIMIT), op.at + op.ttl, op.bannedBy)]
    else last
  }

  function NotedAll(site: Site, last: map<string, Latest>, ops: seq<TableOp>): map<string, Latest>
    decreases |ops|
  {
    if ops == [] then last else Noted(site, NotedAll(site, last, ops[..|ops| - 1]), ops[|ops| - 1])
  }

  /** A row says what its IP's last ban said; only `created` and `banned_by` can be older. */
  ghost predicate UpToDate(bans: map<string, Ban>, last: map<string, Latest>) {
    forall ip :: ip in bans ==>
      ip in last && bans[ip].expires == last[ip].expires && bans[ip].rule == last[ip].rule
      && bans[ip].reason == last[ip].reason
  }

  lemma {:induction false} RunUpToDate(site: Site, s: Store, last: map<string, Latest>, ops: seq<TableOp>)
    requires UpToDate(s.bans, last)
    ensures UpToDate(TableRun(site, s, ops).bans, NotedAll(site, last, ops))
    decreases |ops|
  {
    if ops != [] {
      RunUpToDate(site, s, last, ops[..|ops| - 1]);
      StepUpToDate(site, TableRun(site, s, ops[..|ops| - 1]), NotedAll(site, last, ops[..|ops| - 1]), ops[|ops| - 1]);
    }
  }

  lemma StepUpToDate(site: Site, s: Store, last: map<string, Latest>, op: TableOp)
    requires UpToDate(s.bans, last)
    ensures UpToDate(TableStep(site, s, op).bans, Noted(site, last, op))
  {
  }

  // ---- the re-push at one moment

  function SetOfEntries(batch: seq<Entry>): set<Entry> { set e | e in batch }

  /** What the re-push is for: the active bans that were last made by this node and passed on. */
  function LocalBans(name: string, bans: map<string, Ban>, last: map<string, Latest>, now: Time): set<Entry> {
    set ip | ip in Active(bans, now) && ip in last && PassesOn(last[ip].via)
      :: Entry(ip, last[ip].rule, last[ip].reason, last[ip].expires, name)
  }

  /** The first mark of every active row decides as its last ban does. */
  ghost predicate MarksTell(name: string, bans: map<string, Ban>, last: map<string, Latest>, now: Time) {
    forall ip :: ip in Active(bans, now) ==>
      ip in last && (Resends(name, bans[ip].bannedBy) <==> PassesOn(last[ip].via))
  }

  lemma EntryTells(name: string, bans: map<string, Ban>, last: map<string, Latest>, now: Time, all: seq<Entry>,
                   ip: string)
    requires IsBlocklist(name, bans, now, all) && UpToDate(bans, last) && ip in Active(bans, now)
    ensures var e := Entry(ip, bans[ip].rule, bans[ip].reason, bans[ip].expires, name);
            && (e in SetOfEntries(Own(name, all)) <==> Resends(name, bans[ip].bannedBy))
            && (e in LocalBans(name, bans, last, now) <==> PassesOn(last[ip].via))
  {
    var e := Entry(ip, bans[ip].rule, bans[ip].reason, bans[ip].expires, name);
    Resent(name, bans, now, all, e);
  }

  /** The re-push is the node's own bans if and only if the mark of every active row tells
      whether its last ban passes on. */
  lemma ReshareIsLocalIff(name: string, bans: map<string, Ban>, last: map<string, Latest>, now: Time, all: seq<Entry>)
    requires IsBlocklist(name, bans, now, all) && UpToDate(bans, last)
    ensures SetOfEntries(Own(name, all)) == LocalBans(name, bans, last, now) <==> MarksTell(name, bans, last, now)
  {
    var sent, due := SetOfEntries(Own(name, all)), LocalBans(name, bans, last, now);
    if MarksTell(name, bans, last, now) {
      forall e ensures e in sent <==> e in due {
        Resent(name, bans, now, all, e);
        if e.ip in Active(bans, now) {
          EntryTells(name, bans, last, now, all, e.ip);
        }
      }
    } else {
      var ip :| ip in Active(bans, now) && !(Resends(name, bans[ip].bannedBy) <==> PassesOn(last[ip].via));
      EntryTells(name, bans, last, now, all, ip);
    }
  }

  /** Which marks make a row go out: those that pass a ban on, the community's, and the
      node's own name on a ban that came back. */
  lemma ResendsMeans(name: string, mark: string)
    requires CLUSTER <= mark ==> CLUSTER_COLON <= mark
    ensures Resends(name, mark) <==> PassesOn(mark) || mark == COMMUNITY || mark == CLUSTER_COLON + name
  {
    assert COMMUNITY[1] != CLUSTER[1];
    assert CLUSTER_COLON[..|CLUSTER|] == CLUSTER;
    assert CLUSTER_COLON <= mark ==> mark[..|CLUSTER|] == CLUSTER;
  }

  // ---- over runs of the table

  /** An accepted ban that lasts at all goes out exactly if it passes on: by its own mark when
      it makes a row, by the mark of the row when it finds one. */
  predicate Told(site: Site, bans: map<string, Ban>, op: TableOp) {
    Accepted(site, op) && op.ttl > 0.0 ==>
      (Resends(site.name, if op.ip in bans then bans[op.ip].bannedBy else op.bannedBy) <==> PassesOn(op.bannedBy))
  }

  lemma StepTellsIff(site: Site, s: Store, last: map<string, Latest>, op: TableOp, since: Time)
    requires MarksTell(site.name, s.bans, last, since) && since <= op.at
    ensures MarksTell(site.name, TableStep(site, s, op).bans, Noted(site, last, op), op.at) <==> Told(site, s.bans, op)
  {
    var bans, last' := TableStep(site, s, op).bans, Noted(site, last, op);
    forall ip | ip in Active(bans, op.at) && !(Accepted(site, op) && ip == op.ip)
      ensures ip in last' && (Resends(site.name, bans[ip].bannedBy) <==> PassesOn(last'[ip].via))
    {
      assert ip in Active(s.bans, since);
    }
    if Accepted(site, op) && op.ttl > 0.0 {
      assert op.ip in Active(bans, op.at);
    }
  }

  /** The time of the `k`-th point of a run. */
  function PointTime(ops: seq<TableOp>, since: Time, k: nat): Time
    requires k <= |ops|
  {
    if k == 0 then since else ops[k - 1].at
  }

  ghost predicate TellsAt(site: Site, s: Store, last: map<string, Latest>, ops: seq<TableOp>, since: Time, k: nat)
    requires k <= |ops|
  {
    MarksTell(site.name, TableRun(site, s, ops[..k]).bans, NotedAll(site, last, ops[..k]), PointTime(ops, since, k))
  }

  ghost predicate ToldAt(site: Site, s: Store, ops: seq<TableOp>, k: nat)
    requires k < |ops|
  {
    Told(site, TableRun(site, s, ops[..k]).bans, ops[k])
  }

  ghost predicate InOrderFrom(ops: seq<TableOp>, since: Time) {
    InOrder(ops) && forall i :: 0 <= i < |ops| ==> since <= ops[i].at
  }

  lemma PointTellsIff(site: Site, s: Store, last: map<string, Latest>, ops: seq<TableOp>, since: Time, k: nat)
    requires k < |ops| && InOrderFrom(ops, since) && TellsAt(site, s, last, ops, since, k)
    ensures TellsAt(site, s, last, ops, since, k + 1) <==> ToldAt(site, s, ops, k)
  {
    assert ops[..k + 1][..k] == ops[..k];
    StepTellsIff(site, TableRun(site, s, ops[..k]), NotedAll(site, last, ops[..k]), ops[k], PointTime(ops, since, k));
  }

  lemma {:induction false} ToldTells(site: Site, s: Store, last: map<string, Latest>, ops: seq<TableOp>, since: Time,
                                     k: nat)
    requires k <= |ops| && InOrderFrom(ops, since) && MarksTell(site.name, s.bans, last, since)
    requires forall j: nat :: j < |ops| ==> ToldAt(site, s, ops, j)
    ensures TellsAt(site, s, last, ops, since, k)
    decreases k
  {
    if k > 0 {
      ToldTells(site, s, last, ops, since, k - 1);
      PointTellsIff(site, s, last, ops, since, k - 1);
    } else {
      assert ops[..0] == [];
    }
  }

  lemma MarksTellIff(site: Site, s: Store, last: map<string, Latest>, ops: seq<TableOp>, since: Time)
    requires InOrderFrom(ops, since) && MarksTell(site.name, s.bans, last, since)
    ensures (forall k: nat :: k <= |ops| ==> TellsAt(site, s, last, ops, since, k))
       <==> (forall k: nat :: k < |ops| ==> ToldAt(site, s, ops, k))
  {
    if forall k: nat :: k < |ops| ==> ToldAt(site, s, ops, k) {
      forall k: nat | k <= |ops| ensures TellsAt(site, s, last, ops, since, k) {
        ToldTells(site, s, last, ops, since, k);
      }
    }
    if forall k: nat :: k <= |ops| ==> TellsAt(site, s, last, ops, since, k) {
      forall k: nat | k < |ops| ensures ToldAt(site, s, ops, k) {
        assert TellsAt(site, s, last, ops, since, k) && TellsAt(site, s, last, ops, since, k + 1);
        PointTellsIff(site, s, last, ops, since, k);
      }
    }
  }

  /** Whenever the re-push is made from that point on, and however equally old bans are
      listed, it is exactly the node's own bans. */
  ghost predicate ExactAt(site: Site, s: Store, last: map<string, Latest>, ops: seq<TableOp>, since: Time, k: nat)
    requires k <= |ops|
  {
    var bans, last' := TableRun(site, s, ops[..k]).bans, NotedAll(site, last, ops[..k]);
    forall now, all :: PointTime(ops, since, k) <= now && IsBlocklist(site.name, bans, now, all) ==>
      SetOfEntries(Own(site.name, all)) == LocalBans(site.name, bans, last', now)
  }

  lemma BlocklistExists(name: string, bans: map<string, Ban>, now: Time) returns (all: seq<Entry>)
    ensures IsBlocklist(name, bans, now, all)
  {
    var ips := ListingExists(bans, now);
    Listed(bans, now, ips);
    all := Blocklist(name, bans, ips);
  }

  lemma TellsLater(name: string, bans: map<string, Ban>, last: map<string, Latest>, now: Time, later: Time)
    requires MarksTell(name, bans, last, now) && now <= later
    ensures MarksTell(name, bans, last, later)
  {
    assert Active(bans, later) <= Active(bans, now);
  }

  lemma ExactAtIff(site: Site, s: Store, last: map<string, Latest>, ops: seq<TableOp>, since: Time, k: nat)
    requires k <= |ops| && UpToDate(s.bans, last)
    ensures ExactAt(site, s, last, ops, since, k) <==> TellsAt(site, s, last, ops, since, k)
  {
    var bans, last' := TableRun(site, s, ops[..k]).bans, NotedAll(site, last, ops[..k]);
    var at := PointTime(ops, since, k);
    RunUpToDate(site, s, last, ops[..k]);
    if MarksTell(site.name, bans, last', at) {
      forall now, all | at <= now && IsBlocklist(site.name, bans, now, all)
        ensures SetOfEntries(Own(site.name, all)) == LocalBans(site.name, bans, last', now)
      {
        TellsLater(site.name, bans, last', at, now);
        ReshareIsLocalIff(site.name, bans, last', now, all);
      }
    } else {
      var all := BlocklistExists(site.name, bans, at);
      ReshareIsLocalIff(site.name, bans, last', at, all);
    }
  }

  /** At every point of a run the re-push is exactly the active bans that the node made last
      and passes on, if and only if every accepted ban goes out exactly if it passes on. */
  lemma ReshareExactIff(site: Site, s: Store, last: map<string, Latest>, ops: seq<TableOp>, since: Time)
    requires InOrderFrom(ops, since) && UpToDate(s.bans, last) && MarksTell(site.name, s.bans, last, since)
    ensures (forall k: nat :: k <= |ops| ==> ExactAt(site, s, last, ops, since, k))
       <==> (forall k: nat :: k < |ops| ==> ToldAt(site, s, ops, k))
  {
    forall k: nat | k <= |ops|
      ensures ExactAt(site, s, last, ops, since, k) <==> TellsAt(site, s, last, ops, since, k)
    {
      ExactAtIff(site, s, last, ops, since, k);
    }
    MarksTellIff(site, s, last, ops, since);
  }

  // ---- where it fails

  /** A ban that finds a row goes out under the node's name by the first mark of that row,
      whoever made it. */
  lemma FirstMarkDecides(site: Site, s: Store, op: TableOp, now: Time, all: seq<Entry>)
    requires Accepted(site, op) && op.ip in s.bans && op.at <= now < op.at + op.ttl
    requires IsBlocklist(site.name, TableStep(site, s, op).bans, now, all)
    ensures Entry(op.ip, op.rule, Clip(op.reason, REASON_LIMIT), op.at + op.ttl, site.name) in Own(site.name, all)
       <==> Resends(site.name, s.bans[op.ip].bannedBy)
  {
    Resent(site.name, TableStep(site, s, op).bans, now, all,
           Entry(op.ip, op.rule, Clip(op.reason, REASON_LIMIT), op.at + op.ttl, site.name));
  }

  function BanOf(allow: string -> bool, ip: string, ttl: Time, via: string, at: Time): TableOp {
    AddBan(allow, ip, "scan", "", ttl, via, at)
  }

  /** The re-push is exact after two bans of one address on an empty table. */
  ghost predicate ExactAfterTwo(site: Site, allow: string -> bool, ip: string, first: string, second: string) {
    ExactAt(site, Store(map[], []), map[], TwoBans(allow, ip, first, second), 0.0, 2)
  }

  function TwoBans(allow: string -> bool, ip: string, first: string, second: string): seq<TableOp> {
    [BanOf(allow, ip, 3600.0, first, 0.0), BanOf(allow, ip, 100000.0, second, 10.0)]
  }

  lemma SecondBanIff(site: Site, allow: string -> bool, ip: string, first: string, second: string)
    requires !Refuses(site, allow, ip) && (Resends(site.name, first) <==> PassesOn(first))
    ensures ExactAfterTwo(site, allow, ip, first, second) <==> (Resends(site.name, first) <==> PassesOn(second))
  {
    var ops, start: Store := TwoBans(allow, ip, first, second), Store(map[], []);
    assert ops[..0] == [] && ops[..1] == [ops[0]] && ops[..1][..0] == [];
    assert TableRun(site, start, ops[..1]) == TableStep(site, start, ops[0]);
    assert TellsAt(site, start, map[], ops, 0.0, 0);
    PointTellsIff(site, start, map[], ops, 0.0, 0);
    PointTellsIff(site, start, map[], ops, 0.0, 1);
    ExactAtIff(site, start, map[], ops, 0.0, 2);
  }

  /** A community ban on a row of the node's own goes out, which the outbox leaves out; so does
      a peer's ban, under the node's name; the node's own ban on a relayed row never goes out. */
  lemma SecondBanFails(site: Site, allow: string -> bool, ip: string, peer: string)
    requires !Refuses(site, allow, ip) && peer != site.name
    ensures !ExactAfterTwo(site, allow, ip, "auto", COMMUNITY)
    ensures !ExactAfterTwo(site, allow, ip, "auto", CLUSTER_COLON + peer)
    ensures !ExactAfterTwo(site, allow, ip, CLUSTER_COLON + peer, "auto")
  {
    OtherMark(site.name, peer);
    SecondBanIff(site, allow, ip, "auto", COMMUNITY);
    SecondBanIff(site, allow, ip, "auto", CLUSTER_COLON + peer);
    SecondBanIff(site, allow, ip, CLUSTER_COLON + peer, "auto");
  }

  lemma OtherMark(name: string, peer: string)
    requires peer != name
    ensures Resends(name, "auto") && PassesOn("auto")
    ensures !Resends(name, CLUSTER_COLON + peer) && !PassesOn(CLUSTER_COLON + peer)
  {
    assert CLUSTER_COLON[..|CLUSTER|] == CLUSTER;
    assert (CLUSTER_COLON + peer)[..|CLUSTER|] == CLUSTER;
    assert (CLUSTER_COLON + peer)[|CLUSTER_COLON|..] == peer && (CLUSTER_COLON + name)[|CLUSTER_COLON|..] == name;
  }

  // ---- the table of a node of the mesh

  /** What a batch does to the table: one ban for each entry that is not skipped. */
  function Adoptions(allow: string -> bool, have: set<string>, batch: seq<Entry>, sender: string,
                     now: Time): seq<TableOp>
    decreases |batch|
  {
    if batch == [] then []
    else
      var front, e := Adoptions(allow, have, batch[..|batch| - 1], sender, now), batch[|batch| - 1];
      if e.ip == "" || e.ip in have || e.expires <= now then front
      else
        front + [AddBan(allow, e.ip, e.rule, Clip(e.reason, REMOTE_REASON_LIMIT), Extended(e.expires, now) - now,
                        CLUSTER_COLON + Source(e, sender), now)]
  }

  lemma {:induction false} BatchIsRun(site: Site, allow: string -> bool, have: set<string>, s: Store,
                                      batch: seq<Entry>, sender: string, now: Time)
    ensures AppliedAll(site, allow, have, s, batch, sender, now)
         == TableRun(site, s, Adoptions(allow, have, batch, sender, now))
    ensures forall i :: 0 <= i < |Adoptions(allow, have, batch, sender, now)| ==>
              Adoptions(allow, have, batch, sender, now)[i].at == now
    decreases |batch|
  {
    if batch != [] {
      BatchIsRun(site, allow, have, s, batch[..|batch| - 1], sender, now);
      var front, ops := Adoptions(allow, have, batch[..|batch| - 1], sender, now),
                        Adoptions(allow, have, batch, sender, now);
      assert ops != front ==> ops[..|ops| - 1] == front;
    }
  }

  /** What an act of the mesh does to the table of a node. */
  ghost function NodeOps(sites: map<string, Site>, w: World, act: Act, n: string): seq<TableOp>
    requires Named(sites, w) && Legal(w, act) && n in w.nodes
  {
    match act
    case Local(m, allow, ip, rule, reason, ttl, via, now) =>
      if m == n then [AddBan(allow, ip, rule, reason, ttl, via, now)] else []
    case Unban(m, ip, now) => if m == n then [RemoveBan(ip, now)] else []
    case Expire(m, now) => if m == n then [TableOp.Expire(now)] else []
    case Deliver(msg, allow, now) =>
      if msg.dest == n then Adoptions(allow, Active(w.nodes[n].bans, now), msg.bans, msg.sender, now) else []
    case Pull(m, peer, ips, allow, now) =>
      if m == n then Adoptions(allow, Active(w.nodes[n].bans, now), Answer(w, peer, ips, now), peer, now) else []
    case _ => []
  }

  lemma AloneIsRun(sites: map<string, Site>, w: World, act: Act, n: string)
    requires Named(sites, w) && Legal(w, act) && n in w.nodes && (act.Local? || act.Unban? || act.Expire?)
    ensures Step(sites, w, act).nodes[n].bans == TableRun(sites[n], w.nodes[n], NodeOps(sites, w, act, n)).bans
  {
    var ops := NodeOps(sites, w, act, n);
    assert |ops| == 1 ==> ops[..0] == [];
  }

  lemma ActIsRun(sites: map<string, Site>, w: World, act: Act, n: string)
    requires Named(sites, w) && Legal(w, act) && n in w.nodes
    ensures Step(sites, w, act).nodes[n].bans == TableRun(sites[n], w.nodes[n], NodeOps(sites, w, act, n)).bans
    ensures forall i :: 0 <= i < |NodeOps(sites, w, act, n)| ==> NodeOps(sites, w, act, n)[i].at == act.now
  {
    match act
    case Deliver(msg, allow, now) =>
      BatchIsRun(sites[n], allow, Active(w.nodes[n].bans, now), w.nodes[n], msg.bans, msg.sender, now);
    case Pull(_, peer, ips, allow, now) =>
      BatchIsRun(sites[n], allow, Active(w.nodes[n].bans, now), w.nodes[n], Answer(w, peer, ips, now), peer, now);
    case Local(_, _, _, _, _, _, _, _) => AloneIsRun(sites, w, act, n);
    case Unban(_, _, _) => AloneIsRun(sites, w, act, n);
    case Expire(_, _) => AloneIsRun(sites, w, act, n);
    case _ =>
  }

  ghost function AllOps(sites: map<string, Site>, w: World, acts: seq<Act>, since: Time, n: string): seq<TableOp>
    requires Named(sites, w) && Runs(sites, w, acts, since) && n in w.nodes
    decreases |acts|
  {
    if acts == [] then []
    else
      StepKeepsNames(sites, w, acts[0]);
      NodeOps(sites, w, acts[0], n) + AllOps(sites, Step(sites, w, acts[0]), acts[1..], acts[0].now, n)
  }

  lemma {:induction false} BansAlone(site: Site, s: Store, t: Store, ops: seq<TableOp>)
    requires s.bans == t.bans
    ensures TableRun(site, s, ops).bans == TableRun(site, t, ops).bans
    decreases |ops|
  {
    if ops != [] {
      BansAlone(site, s, t, ops[..|ops| - 1]);
    }
  }

  lemma {:induction false} RunOfRuns(site: Site, s: Store, a: seq<TableOp>, b: seq<TableOp>)
    ensures TableRun(site, s, a + b) == TableRun(site, TableRun(site, s, a), b)
    decreases |b|
  {
    if b == [] {
      assert a + b == a;
    } else {
      RunOfRuns(site, s, a, b[..|b| - 1]);
      assert (a + b)[..|a + b| - 1] == a + b[..|b| - 1];
    }
  }

  lemma OpsInOrder(now: seq<TableOp>, later: seq<TableOp>, at: Time, since: Time)
    requires since <= at && InOrderFrom(later, at) && forall i :: 0 <= i < |now| ==> now[i].at == at
    ensures InOrderFrom(now + later, since)
  {
  }

  /** Whatever the mesh does, the table of each of its nodes goes through a run of the table;
      so what holds on every run of the table holds of every node on every run of the mesh. */
  lemma {:induction false} MeshIsTableRuns(sites: map<string, Site>, w: World, acts: seq<Act>, since: Time, n: string)
    requires Named(sites, w) && Runs(sites, w, acts, since) && n in w.nodes
    ensures n in After(sites, w, acts, since).nodes && InOrderFrom(AllOps(sites, w, acts, since, n), since)
    ensures After(sites, w, acts, since).nodes[n].bans
         == TableRun(sites[n], w.nodes[n], AllOps(sites, w, acts, since, n)).bans
    decreases |acts|
  {
    if acts != [] {
      StepKeepsNames(sites, w, acts[0]);
      var w' := Step(sites, w, acts[0]);
      var now, later := NodeOps(sites, w, acts[0], n), AllOps(sites, w', acts[1..], acts[0].now, n);
      ActIsRun(sites, w, acts[0], n);
      MeshIsTableRuns(sites, w', acts[1..], acts[0].now, n);
      OpsInOrder(now, later, acts[0].now, since);
      RunOfRuns(sites[n], w.nodes[n], now, later);
      BansAlone(sites[n], w'.nodes[n], TableRun(sites[n], w.nodes[n], now), later);
    }
  }

  lemma {:induction false} EndsInTime(sites: map<string, Site>, w: World, acts: seq<Act>, since: Time, n: string)
    requires Named(sites, w) && Runs(sites, w, acts, since) && n in w.nodes
    ensures var ops := AllOps(sites, w, acts, since, n); PointTime(ops, since, |ops|) <= End(acts, since)
    ensures since <= End(acts, since)
    decreases |acts|
  {
    if acts != [] {
      StepKeepsNames(sites, w, acts[0]);
      ActIsRun(sites, w, acts[0], n);
      EndsInTime(sites, Step(sites, w, acts[0]), acts[1..], acts[0].now, n);
    }
  }

  /** On a run of the mesh in which every ban that the node accepts goes out exactly if it
      passes on, its re-push at the end is exactly its own bans. */
  lemma MeshReshares(sites: map<string, Site>, w: World, acts: seq<Act>, since: Time, n: string,
                     last: map<string, Latest>, now: Time, all: seq<Entry>)
    requires Named(sites, w) && Runs(sites, w, acts, since) && n in w.nodes
    requires UpToDate(w.nodes[n].bans, last) && MarksTell(n, w.nodes[n].bans, last, since)
    requires var ops := AllOps(sites, w, acts, since, n);
             forall k: nat :: k < |ops| ==> ToldAt(sites[n], w.nodes[n], ops, k)
    requires End(acts, since) <= now && n in After(sites, w, acts, since).nodes
    requires IsBlocklist(n, After(sites, w, acts, since).nodes[n].bans, now, all)
    ensures SetOfEntries(Own(n, all))
         == LocalBans(n, After(sites, w, acts, since).nodes[n].bans,
                      NotedAll(sites[n], last, AllOps(sites, w, acts, since, n)), now)
  {
    var ops := AllOps(sites, w, acts, since, n);
    MeshIsTableRuns(sites, w, acts, since, n);
    EndsInTime(sites, w, acts, since, n);
    ReshareExactIff(sites[n], w.nodes[n], last, ops, since);
    assert ops[..|ops|] == ops;
    assert ExactAt(sites[n], w.nodes[n], last, ops, since, |ops|);
  }
}
