/** The gossip of one node as an object (secwatch/cluster.py), over its ban table. */
module ClusterNodes {
  import opened Collections
  import opened Windows
  import opened Bans
  import opened Edge
  import opened BanTables
  import opened BanGossip
  import opened BanMesh

  /** How many entries of a batch are taken. */
  function CountTaken(site: Site, allow: string -> bool, have: set<string>, batch: seq<Entry>, now: Time): int
    decreases |batch|
  {
    if batch == [] then 0
    else CountTaken(site, allow, have, batch[..|batch| - 1], now)
         + (if Takes(site, allow, have, batch[|batch| - 1], now) then 1 else 0)
  }

  /** An entry that is adopted: it names an address that was not active, it has not expired, and
      the site does not refuse it. */
  function Adoptable(site: Site, allow: string -> bool, have: set<string>, now: Time): Entry -> bool {
    (e: Entry) =>
      e.ip != "" && e.ip !in have && now < e.expires
      && site.valid(e.ip) && !site.trusted(e.ip) && !site.exempt(e.ip) && !allow(e.ip)
  }

  lemma {:induction false} CountTakenIs(site: Site, allow: string -> bool, have: set<string>, batch: seq<Entry>,
                                        now: Time)
    ensures CountTaken(site, allow, have, batch, now) == CountWhere(batch, Adoptable(site, allow, have, now))
    decreases |batch|
  {
    if batch != [] {
      var front, e := batch[..|batch| - 1], batch[|batch| - 1];
      CountTakenIs(site, allow, have, front, now);
      CountWhereSnoc(front, e, Adoptable(site, allow, have, now));
      assert batch == front + [e];
    }
  }

  /** The answer to a pull, from some listing of the active bans. */
  ghost predicate IsBlocklist(name: string, bans: map<string, Ban>, now: Time, out: seq<Entry>) {
    exists ips ::
      && IsListing(bans, now, ips) && (forall i :: 0 <= i < |ips| ==> ips[i] in bans)
      && out == Blocklist(name, bans, ips)
  }

  function Members(names: seq<string>): set<string> { set n | n in names }

  class ClusterNode {
    const table: BanTable

    constructor (table: BanTable)
      ensures this.table == table
    {
      this.table := table;
    }

    /** One round of the loop below. */
    method ApplyEntry(allow: string -> bool, have: set<string>, e: Entry, sender: string, now: Time) returns (ok: bool)
      requires table.Valid()
      modifies table
      ensures table.Valid() && table.Rows() == AppliedOne(table.site, allow, have, old(table.Rows()), e, sender, now)
      ensures ok == Takes(table.site, allow, have, e, now)
    {
      ok := false;
      if !(e.ip == "" || e.ip in have || e.expires <= now) {
        var hours := if (e.expires - now) / 3600.0 > 0.02 then (e.expires - now) / 3600.0 else 0.02;
        assert hours * 3600.0 == Extended(e.expires, now) - now;
        ok := table.Add(allow, e.ip, e.rule, Clip(e.reason, REMOTE_REASON_LIMIT), hours * 3600.0,
                        CLUSTER_COLON + (if e.origin != "" then e.origin else sender), now);
      }
    }

    /** `_apply_remote_bans`: the active IPs are read once, before the first entry. */
    method ApplyRemoteBans(allow: string -> bool, batch: seq<Entry>, sender: string, now: Time) returns (applied: int)
      requires table.Valid()
      modifies table
      ensures table.Valid() && table.Rows() == Applied(table.site, allow, old(table.Rows()), batch, sender, now)
      ensures applied == CountTaken(table.site, allow, Active(old(table.bans), now), batch, now)
    {
      var have := Active(table.bans, now);
      applied := 0;
      for i := 0 to |batch|
        invariant table.Valid()
        invariant table.Rows() == AppliedAll(table.site, allow, have, old(table.Rows()), batch[..i], sender, now)
        invariant applied == CountTaken(table.site, allow, have, batch[..i], now)
      {
        assert batch[..i + 1][..i] == batch[..i];
        var ok := ApplyEntry(allow, have, batch[i], sender, now);
        applied := applied + (if ok then 1 else 0);
      }
      assert batch[..|batch|] == batch;
    }

    /** `local_blocklist`. */
    method LocalBlocklist(now: Time) returns (out: seq<Entry>)
      ensures IsBlocklist(table.site.name, table.bans, now, out)
    {
      var ips := table.Listing(now);
      Listed(table.bans, now, ips);
      out := [];
      for i := 0 to |ips|
        invariant out == Blocklist(table.site.name, table.bans, ips)[..i]
      {
        var row := table.bans[ips[i]];
        var origin := if CLUSTER_COLON <= row.bannedBy then row.bannedBy[|CLUSTER_COLON|..] else table.site.name;
        out := out + [Entry(ips[i], row.rule, row.reason, row.expires, origin)];
      }
    }

    /** `_push_outbox`: the queue is emptied whether or not the pushes arrive. */
    method PushOutbox(peers: seq<string>) returns (sent: set<Msg>)
      modifies table`outbox
      ensures table.outbox == []
      ensures sent == if old(table.outbox) == [] then {} else Sent(Members(peers), table.site.name, old(table.outbox))
    {
      sent := {};
      var batch := table.outbox;
      if batch != [] {
        table.outbox := [];
        for i := 0 to |peers|
          invariant sent == Sent(Members(peers[..i]), table.site.name, batch)
          invariant table.outbox == []
        {
          sent := sent + {Msg(peers[i], table.site.name, batch)};
          assert peers[..i + 1] == peers[..i] + [peers[i]];
          SentOneMore(Members(peers[..i]), peers[i], table.site.name, batch);
          assert Members(peers[..i + 1]) == Members(peers[..i]) + {peers[i]};
        }
        assert peers[..|peers|] == peers;
      }
    }

    /** `_reshare_local_bans`: what a leaf pushes again. */
    method ReshareLocalBans(now: Time) returns (mine: seq<Entry>)
      ensures exists all :: IsBlocklist(table.site.name, table.bans, now, all) && mine == Own(table.site.name, all)
    {
      var all := LocalBlocklist(now);
      mine := [];
      for i := 0 to |all|
        invariant mine == Own(table.site.name, all[..i])
      {
        assert all[..i + 1][..i] == all[..i];
        if all[i].origin == table.site.name {
          mine := mine + [all[i]];
        }
      }
      assert all[..|all|] == all;
    }
  }

  lemma SentOneMore(dests: set<string>, d: string, sender: string, batch: seq<Entry>)
    ensures Sent(dests + {d}, sender, batch) == Sent(dests, sender, batch) + {Msg(d, sender, batch)}
  {
  }

  lemma ListedOnce(name: string, bans: map<string, Ban>, now: Time, all: seq<Entry>, e: Entry)
    requires IsBlocklist(name, bans, now, all)
    ensures e in all <==> e.ip in Active(bans, now)
                          && e == Entry(e.ip, bans[e.ip].rule, bans[e.ip].reason, bans[e.ip].expires,
                                        Origin(name, bans[e.ip]))
  {
    var ips :| && IsListing(bans, now, ips) && (forall i :: 0 <= i < |ips| ==> ips[i] in bans)
               && all == Blocklist(name, bans, ips);
    if e.ip in Active(bans, now) {
      assert e.ip in ips;
      var k :| 0 <= k < |ips| && ips[k] == e.ip;
      assert all[k].ip == e.ip;
    }
    if e in all {
      var k :| 0 <= k < |all| && all[k] == e;
      assert ips[k] in ips;
    }
  }

  /** The rows whose ban goes out again with the node as its origin: all but those relayed for
      somebody else. */
  predicate Resends(name: string, mark: string) {
    !(CLUSTER_COLON <= mark) || mark == CLUSTER_COLON + name
  }

  /** What the re-push sends: the active bans, as they stand, whose row says so. */
  lemma Resent(name: string, bans: map<string, Ban>, now: Time, all: seq<Entry>, e: Entry)
    requires IsBlocklist(name, bans, now, all)
    ensures e in Own(name, all) <==>
              && e.ip in Active(bans, now) && Resends(name, bans[e.ip].bannedBy)
              && e == Entry(e.ip, bans[e.ip].rule, bans[e.ip].reason, bans[e.ip].expires, name)
  {
    OwnIsPart(name, all);
    ListedOnce(name, bans, now, all, e);
    if e.ip in Active(bans, now) {
      var mark := bans[e.ip].bannedBy;
      assert CLUSTER_COLON <= mark ==> mark == CLUSTER_COLON + mark[|CLUSTER_COLON|..];
      assert Origin(name, bans[e.ip]) == name <==> Resends(name, mark);
    }
  }
}
