/** Ban gossip (secwatch/cluster.py): what a node does with bans from its peers, and what
    it tells them. */
module BanGossip {
  import opened Collections
  import opened Windows
  import opened Bans

  /** An adopted ban lasts at least 0.02 hours. */
  const FLOOR: Time := 72.0
  const REMOTE_REASON_LIMIT := 280

  /** When an adopted ban expires. */
  function Extended(expires: Time, now: Time): Time {
    if expires > now + FLOOR then expires else now + FLOOR
  }

  /** The peer is named when the entry has no origin. */
  function Source(e: Entry, sender: string): string { if e.origin != "" then e.origin else sender }

  /** The entry changes the table; `have` are the IPs active when the batch arrived. */
  predicate Takes(site: Site, allow: string -> bool, have: set<string>, e: Entry, now: Time) {
    e.ip != "" && e.ip !in have && e.expires > now && !Refuses(site, allow, e.ip)
  }

  function AppliedOne(site: Site, allow: string -> bool, have: set<string>, s: Store, e: Entry, sender: string,
                      now: Time): Store {
    if e.ip == "" || e.ip in have || e.expires <= now then s
    else Banned(site, allow, s, e.ip, e.rule, Clip(e.reason, REMOTE_REASON_LIMIT),
                Extended(e.expires, now) - now, CLUSTER_COLON + Source(e, sender), now).0
  }

  function AppliedAll(site: Site, allow: string -> bool, have: set<string>, s: Store, batch: seq<Entry>,
                      sender: string, now: Time): Store
    decreases |batch|
  {
    if batch == [] then s
    else AppliedOne(site, allow, have, AppliedAll(site, allow, have, s, batch[..|batch| - 1], sender, now),
                    batch[|batch| - 1], sender, now)
  }

  /** `_apply_remote_bans`. */
  function Applied(site: Site, allow: string -> bool, s: Store, batch: seq<Entry>, sender: string, now: Time): Store {
    AppliedAll(site, allow, Active(s.bans, now), s, batch, sender, now)
  }

  /** A relayed ban keeps its origin; any other is the node's own. */
  function Origin(name: string, row: Ban): string {
    if CLUSTER_COLON <= row.bannedBy then row.bannedBy[|CLUSTER_COLON|..] else name
  }

  /** `local_blocklist`, from a listing of the active bans. */
  function Blocklist(name: string, bans: map<string, Ban>, ips: seq<string>): seq<Entry>
    requires forall i :: 0 <= i < |ips| ==> ips[i] in bans
  {
    seq(|ips|, i requires 0 <= i < |ips| =>
      Entry(ips[i], bans[ips[i]].rule, bans[ips[i]].reason, bans[ips[i]].expires, Origin(name, bans[ips[i]])))
  }

  /** What a leaf pushes again: the part of its blocklist with itself as the origin. */
  function Own(name: string, batch: seq<Entry>): seq<Entry>
    decreases |batch|
  {
    if batch == [] then []
    else Own(name, batch[..|batch| - 1]) + (if batch[|batch| - 1].origin == name then [batch[|batch| - 1]] else [])
  }

  lemma {:induction false} OwnIsPart(name: string, batch: seq<Entry>)
    ensures forall i :: 0 <= i < |Own(name, batch)| ==>
            Own(name, batch)[i] in batch && Own(name, batch)[i].origin == name
    ensures forall i :: 0 <= i < |batch| && batch[i].origin == name ==> batch[i] in Own(name, batch)
    decreases |batch|
  {
    if batch != [] {
      var front := batch[..|batch| - 1];
      OwnIsPart(name, front);
      assert batch == front + [batch[|batch| - 1]];
    }
  }

  // ---- what becomes of one IP

  /** The last entry for the IP that is taken, or -1. */
  function Last(site: Site, allow: string -> bool, have: set<string>, batch: seq<Entry>, ip: string,
                now: Time): (k: int)
    ensures -1 <= k < |batch|
    ensures k >= 0 ==> batch[k].ip == ip && Takes(site, allow, have, batch[k], now)
    ensures forall i :: k < i < |batch| ==> !(batch[i].ip == ip && Takes(site, allow, have, batch[i], now))
    decreases |batch|
  {
    if batch == [] then -1
    else if batch[|batch| - 1].ip == ip && Takes(site, allow, have, batch[|batch| - 1], now) then |batch| - 1
    else Last(site, allow, have, batch[..|batch| - 1], ip, now)
  }

  /** The row is what it was, or comes from entries of the batch that were taken: its
      expiry from the last of them, its attribution from an earlier row if there is one. */
  ghost predicate ComesFrom(site: Site, allow: string -> bool, have: set<string>, before: map<string, Ban>,
                            after: map<string, Ban>,
                            batch: seq<Entry>, sender: string, ip: string, now: Time)
  {
    var k := Last(site, allow, have, batch, ip, now);
    if k < 0 then (ip in after <==> ip in before) && (ip in before ==> after[ip] == before[ip])
    else
      && ip in after
      && after[ip].expires == Extended(batch[k].expires, now)
      && after[ip].rule == batch[k].rule && after[ip].reason == Clip(batch[k].reason, REMOTE_REASON_LIMIT)
      && if ip in before then after[ip].bannedBy == before[ip].bannedBy && after[ip].created == before[ip].created
         else
           && after[ip].created == now
           && exists i ::
                0 <= i <= k && batch[i].ip == ip && after[ip].bannedBy == CLUSTER_COLON + Source(batch[i], sender)
  }

  lemma OneComesFrom(site: Site, allow: string -> bool, have: set<string>, before: map<string, Ban>, s: Store,
                     batch: seq<Entry>, sender: string, ip: string, now: Time)
    requires batch != []
    requires ComesFrom(site, allow, have, before, s.bans, batch[..|batch| - 1], sender, ip, now)
    ensures ComesFrom(site, allow, have, before,
                      AppliedOne(site, allow, have, s, batch[|batch| - 1], sender, now).bans, batch, sender, ip, now)
  {
    var front, e := batch[..|batch| - 1], batch[|batch| - 1];
    var k := Last(site, allow, have, front, ip, now);
    if e.ip == ip && Takes(site, allow, have, e, now) {
      if ip !in before && k >= 0 {
        var i :| 0 <= i <= k && front[i].ip == ip && s.bans[ip].bannedBy == CLUSTER_COLON + Source(front[i], sender);
        assert batch[i] == front[i];
      }
    } else if k >= 0 {
      assert batch[k] == front[k];
      if ip !in before {
        var i :| 0 <= i <= k && front[i].ip == ip && s.bans[ip].bannedBy == CLUSTER_COLON + Source(front[i], sender);
        assert batch[i] == front[i];
      }
    }
  }

  /** The outbox is not touched, and each row comes from where it should. */
  lemma {:induction false} AppliedRow(site: Site, allow: string -> bool, have: set<string>, s: Store,
                                      batch: seq<Entry>, sender: string, ip: string, now: Time)
    ensures AppliedAll(site, allow, have, s, batch, sender, now).outbox == s.outbox
    ensures ComesFrom(site, allow, have, s.bans, AppliedAll(site, allow, have, s, batch, sender, now).bans, batch,
                      sender, ip, now)
    decreases |batch|
  {
    if batch != [] {
      var front := batch[..|batch| - 1];
      AppliedRow(site, allow, have, s, front, sender, ip, now);
      OneComesFrom(site, allow, have, s.bans, AppliedAll(site, allow, have, s, front, sender, now), batch, sender, ip,
                   now);
    }
  }

  // ---- one exchange

  lemma AppliedSingle(site: Site, allow: string -> bool, s: Store, e: Entry, sender: string, now: Time)
    ensures Applied(site, allow, s, [e], sender, now) == AppliedOne(site, allow, Active(s.bans, now), s, e, sender, now)
  {
    assert [e][..0] == [];
    assert AppliedAll(site, allow, Active(s.bans, now), s, [], sender, now) == s;
  }

  /** After a batch is applied, every ban in it that is unexpired and not refused is
      active: adopted now, or active before and left alone. */
  lemma AppliedActivates(site: Site, allow: string -> bool, s: Store, batch: seq<Entry>, sender: string, now: Time,
                         i: nat)
    requires i < |batch| && batch[i].ip != "" && batch[i].expires > now && !Refuses(site, allow, batch[i].ip)
    ensures batch[i].ip in Active(Applied(site, allow, s, batch, sender, now).bans, now)
  {
    AppliedRow(site, allow, Active(s.bans, now), s, batch, sender, batch[i].ip, now);
  }

  lemma ActiveStays(site: Site, allow: string -> bool, s: Store, batch: seq<Entry>, sender: string, now: Time,
                    ip: string)
    requires ip in Active(s.bans, now)
    ensures ip in Applied(site, allow, s, batch, sender, now).bans
    ensures Applied(site, allow, s, batch, sender, now).bans[ip] == s.bans[ip]
  {
    AppliedRow(site, allow, Active(s.bans, now), s, batch, sender, ip, now);
  }

  lemma {:induction false} NoneTaken(site: Site, allow: string -> bool, have: set<string>, s: Store,
                                     batch: seq<Entry>, sender: string, now: Time)
    requires forall i :: 0 <= i < |batch| ==> !Takes(site, allow, have, batch[i], now)
    ensures AppliedAll(site, allow, have, s, batch, sender, now) == s
    decreases |batch|
  {
    if batch != [] {
      NoneTaken(site, allow, have, s, batch[..|batch| - 1], sender, now);
    }
  }

  /** Applying the same batch again changes nothing. */
  lemma AppliedTwice(site: Site, allow: string -> bool, s: Store, batch: seq<Entry>, sender: string, now: Time)
    ensures var once := Applied(site, allow, s, batch, sender, now);
            Applied(site, allow, once, batch, sender, now) == once
  {
    var once := Applied(site, allow, s, batch, sender, now);
    forall i | 0 <= i < |batch| ensures !Takes(site, allow, Active(once.bans, now), batch[i], now) {
      if batch[i].ip != "" && batch[i].expires > now && !Refuses(site, allow, batch[i].ip) {
        AppliedActivates(site, allow, s, batch, sender, now, i);
      }
    }
    NoneTaken(site, allow, Active(once.bans, now), once, batch, sender, now);
  }
}
