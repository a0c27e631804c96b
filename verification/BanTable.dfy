/** The ban table as an object (secwatch/ban.py): each operation changes the rows and
    keeps the edge synced with them. Also, over whole runs: what the periodic clean-up of
    expired rows leaves alone, and exactly when it changes what a returning ban keeps of
    its row. */
module BanTables {
  import opened Collections
  import opened Windows
  import opened Bans
  import opened Edge

  class BanTable {
    const site: Site
    const actuator: Actuator
    var bans: map<string, Ban>
    var outbox: seq<Entry>
    var edge: EdgeState
    /** When the edge was last rewritten. */
    ghost var synced: Time

    ghost predicate Valid()
      reads this
    {
      Synced(actuator, bans, synced, edge)
    }

    ghost function Rows(): Store
      reads this
    {
      Store(bans, outbox)
    }

    /** At startup the table is what the database holds and the edge what the last run
        left; `expire_and_sync` is called before anything else. */
    constructor (site: Site, actuator: Actuator, bans: map<string, Ban>, edge: EdgeState, now: Time)
      ensures Valid() && synced == now && this.bans == Kept(bans, now) && outbox == []
      ensures this.site == site && this.actuator == actuator
    {
      this.site, this.actuator, this.bans, this.edge, outbox, synced := site, actuator, bans, edge, [], now;
      new;
      ExpireAndSync(now);
    }

    /** `active`. */
    method Listing(now: Time) returns (ips: seq<string>)
      ensures IsListing(bans, now, ips)
    {
      var rest := Active(bans, now);
      ips := [];
      while rest != {}
        invariant rest <= Active(bans, now)
        invariant NoRepeats(ips) && NewestFirst(bans, ips)
        invariant forall ip :: ip in ips <==> ip in Active(bans, now) - rest
        invariant forall i, other :: 0 <= i < |ips| && other in rest && ips[i] in bans ==>
                bans[other].created <= bans[ips[i]].created
        decreases |rest|
      {
        NewestExists(bans, rest);
        var ip :| ip in rest && forall other :: other in rest ==> bans[other].created <= bans[ip].created;
        assert ip !in ips;
        ips := ips + [ip];
        rest := rest - {ip};
      }
    }

    /** `write_file`. */
    method WriteFile(now: Time)
      modifies `edge, `synced
      ensures Valid() && synced == now
    {
      var ips := Listing(now);
      edge := Rendered(actuator, ips, edge);
      RenderedAgain(actuator, ips, old(edge));
      synced := now;
    }

    /** An accepted ban is upserted, enforced, and queued for the peers when it was made
        here; a refused one changes nothing. */
    method Add(allow: string -> bool, ip: string, rule: string, reason: string, ttl: Time, bannedBy: string, now: Time)
      returns (ok: bool)
      requires Valid()
      modifies `bans, `outbox, `edge, `synced
      ensures Valid() && (Rows(), ok) == Banned(site, allow, old(Rows()), ip, rule, reason, ttl, bannedBy, now)
      ensures if ok then synced == now else edge == old(edge) && synced == old(synced)
    {
      if !site.valid(ip) || site.trusted(ip) || site.exempt(ip) || allow(ip) {
        ok := false;
      } else {
        var expires := now + ttl;
        if ip in bans {
          bans := bans[ip := bans[ip].(expires := expires, rule := rule, reason := Clip(reason, REASON_LIMIT))];
        } else {
          bans := bans[ip := Ban(rule, Clip(reason, REASON_LIMIT), now, expires, bannedBy)];
        }
        WriteFile(now);
        if bannedBy != COMMUNITY && !(CLUSTER <= bannedBy) && site.clustered {
          outbox := outbox + [Entry(ip, rule, reason, expires, site.name)];
        }
        ok := true;
      }
    }

    /** Removing a row rewrites the edge; removing nothing leaves everything as it was. */
    method Remove(ip: string, now: Time) returns (found: bool)
      requires Valid()
      modifies `bans, `edge, `synced
      ensures Valid() && found == (ip in old(bans)) && bans == old(bans) - {ip}
      ensures if found then synced == now else edge == old(edge) && synced == old(synced)
    {
      found := ip in bans;
      bans := bans - {ip};
      if found {
        WriteFile(now);
      } else {
        assert bans == old(bans);
      }
    }

    /** Expired rows go, and the edge is rewritten even when there were none. */
    method ExpireAndSync(now: Time)
      modifies `bans, `edge, `synced
      ensures Valid() && synced == now && bans == Kept(old(bans), now)
    {
      bans := map ip | ip in bans && !(bans[ip].expires <= now) :: bans[ip];
      WriteFile(now);
    }
  }

  // ---- runs of the table

  datatype TableOp =
    | AddBan(allow: string -> bool, ip: string, rule: string, reason: string, ttl: Time, bannedBy: string, at: Time)
    | RemoveBan(ip: string, at: Time)
    | Expire(at: Time)

  function TableStep(site: Site, s: Store, op: TableOp): Store {
    match op
    case AddBan(allow, ip, rule, reason, ttl, bannedBy, at) =>
      Banned(site, allow, s, ip, rule, reason, ttl, bannedBy, at).0
    case RemoveBan(ip, at) => s.(bans := s.bans - {ip})
    case Expire(at) => s.(bans := Kept(s.bans, at))
  }

  function TableRun(site: Site, s: Store, ops: seq<TableOp>): Store
    decreases |ops|
  {
    if ops == [] then s else TableStep(site, TableRun(site, s, ops[..|ops| - 1]), ops[|ops| - 1])
  }

  /** The same operations when expired rows are never deleted. */
  function HoardingRun(site: Site, s: Store, ops: seq<TableOp>): Store
    decreases |ops|
  {
    if ops == [] then s
    else
      var before := HoardingRun(site, s, ops[..|ops| - 1]);
      if ops[|ops| - 1].Expire? then before else TableStep(site, before, ops[|ops| - 1])
  }

  ghost predicate InOrder(ops: seq<TableOp>) {
    forall i, j :: 0 <= i < j < |ops| ==> ops[i].at <= ops[j].at
  }

  /** The two tables have the same bans active from `now` on, with the same expiry, rule
      and reason. */
  ghost predicate SameBans(a: map<string, Ban>, b: map<string, Ban>, now: Time) {
    forall ip ::
      && (ip in Active(a, now) <==> ip in Active(b, now))
      && (ip in Active(a, now) ==>
          a[ip].expires == b[ip].expires && a[ip].rule == b[ip].rule && a[ip].reason == b[ip].reason)
  }

  lemma AddKeepsBans(a: map<string, Ban>, b: map<string, Ban>, ip: string, row: Ban, now: Time)
    requires SameBans(a, b, now)
    ensures SameBans(Upserted(a, ip, row), Upserted(b, ip, row), now)
  {
  }

  lemma StepKeepsBans(site: Site, s: Store, t: Store, op: TableOp)
    requires SameBans(s.bans, t.bans, op.at) && s.outbox == t.outbox
    ensures var t' := if op.Expire? then t else TableStep(site, t, op);
            var s' := TableStep(site, s, op);
            SameBans(s'.bans, t'.bans, op.at) && s'.outbox == t'.outbox
  {
    match op
    case AddBan(allow, ip, rule, reason, ttl, bannedBy, at) =>
      AddKeepsBans(s.bans, t.bans, ip, Ban(rule, Clip(reason, REASON_LIMIT), at, at + ttl, bannedBy), at);
    case RemoveBan(ip, at) =>
    case Expire(at) =>
  }

  /** When expired rows are deleted decides nothing about which bans are active, until
      when, and why, nor about what is queued for the peers. */
  lemma {:induction false} CleanUpIsInvisible(site: Site, s: Store, ops: seq<TableOp>, now: Time)
    requires InOrder(ops) && forall i :: 0 <= i < |ops| ==> ops[i].at <= now
    ensures SameBans(TableRun(site, s, ops).bans, HoardingRun(site, s, ops).bans, now)
    ensures TableRun(site, s, ops).outbox == HoardingRun(site, s, ops).outbox
    decreases |ops|
  {
    if ops != [] {
      var front, op := ops[..|ops| - 1], ops[|ops| - 1];
      CleanUpIsInvisible(site, s, front, op.at);
      var a, b := TableRun(site, s, front), HoardingRun(site, s, front);
      StepKeepsBans(site, a, b, op);
      SameLater(TableStep(site, a, op).bans, (if op.Expire? then b else TableStep(site, b, op)).bans, op.at, now);
    }
  }

  lemma SameLater(a: map<string, Ban>, b: map<string, Ban>, now: Time, later: Time)
    requires SameBans(a, b, now) && now <= later
    ensures SameBans(a, b, later)
  {
    assert forall ip :: ip in Active(a, later) ==> ip in Active(a, now);
    assert forall ip :: ip in Active(b, later) ==> ip in Active(b, now);
  }

  // ---- when an accepted ban is enforced

  /** The active bans, other than the new one, that are listed before it or may be: a renewed
      row keeps its place by age. */
  function Ahead(bans: map<string, Ban>, op: TableOp): set<string>
    requires op.AddBan?
  {
    var created := if op.ip in bans then bans[op.ip].created else op.at;
    set other | other in Active(bans, op.at) && other != op.ip && bans[other].created >= created
  }

  /** An accepted ban is sure to be enforced if and only if the actuator handles the address
      and fewer than 500 other active bans are at least as new as its row. */
  lemma AcceptedIsEnforcedIff(a: Actuator, site: Site, s: Store, op: TableOp)
    requires op.AddBan? && !Refuses(site, op.allow, op.ip) && op.ttl > 0.0
    requires Quotable(a, TableStep(site, s, op).bans, op.at)
    ensures (forall e :: Synced(a, TableStep(site, s, op).bans, op.at, e) ==> op.ip in Denies(a, e))
       <==> Handles(a, op.ip) && |Ahead(s.bans, op)| < BAN_MAX_ACTIVE
  {
    var after := TableStep(site, s, op).bans;
    assert op.ip in Active(after, op.at);
    assert Rivals(after, op.at, op.ip) == Ahead(s.bans, op);
    EnforcedIff(a, after, op.at, op.ip);
  }

  // ---- attribution is another matter

  /** What a row keeps from its first ban: to whom it is attributed, and when it was made. */
  datatype Mark = ByWhom | SinceWhen

  predicate SameMark(m: Mark, x: Ban, y: Ban) {
    match m
    case ByWhom => x.bannedBy == y.bannedBy
    case SinceWhen => x.created == y.created
  }

  /** The row that a ban makes when there is none. */
  function Fresh(op: TableOp): Ban
    requires op.AddBan?
  {
    Ban(op.rule, Clip(op.reason, REASON_LIMIT), op.at, op.at + op.ttl, op.bannedBy)
  }

  /** A clean-up at the moment of an accepted ban leaves the mark of its row the same exactly
      when there was no expired row, or one with the mark of the new ban. */
  lemma CleanUpKeepsMarkIff(m: Mark, site: Site, s: Store, op: TableOp)
    requires op.AddBan? && !Refuses(site, op.allow, op.ip)
    ensures var cleaned := TableStep(site, s.(bans := Kept(s.bans, op.at)), op).bans;
            var kept := TableStep(site, s, op).bans;
            SameMark(m, cleaned[op.ip], kept[op.ip])
            <==> (op.ip in s.bans && s.bans[op.ip].expires <= op.at ==> SameMark(m, s.bans[op.ip], Fresh(op)))
  {
  }

  /** Every row of the cleaned table is in the hoarding one, with the same mark. */
  ghost predicate Aligned(m: Mark, cleaned: map<string, Ban>, hoarded: map<string, Ban>) {
    forall ip :: ip in cleaned ==> ip in hoarded && SameMark(m, cleaned[ip], hoarded[ip])
  }

  /** An accepted ban whose row was cleaned up has the mark of that row. */
  ghost predicate Repeats(m: Mark, site: Site, cleaned: map<string, Ban>, hoarded: map<string, Ban>, op: TableOp) {
    op.AddBan? && !Refuses(site, op.allow, op.ip) && op.ip !in cleaned && op.ip in hoarded
    ==> SameMark(m, hoarded[op.ip], Fresh(op))
  }

  function Hoarded(site: Site, s: Store, op: TableOp): Store { if op.Expire? then s else TableStep(site, s, op) }

  lemma StepAlignedIff(m: Mark, site: Site, s: Store, t: Store, op: TableOp)
    requires Aligned(m, s.bans, t.bans)
    ensures Aligned(m, TableStep(site, s, op).bans, Hoarded(site, t, op).bans) <==> Repeats(m, site, s.bans, t.bans, op)
  {
    var s', t' := TableStep(site, s, op).bans, Hoarded(site, t, op).bans;
    if op.AddBan? && !Refuses(site, op.allow, op.ip) {
      assert op.ip in s' && op.ip in t';
      forall ip | ip in s' && ip != op.ip ensures ip in t' && SameMark(m, s'[ip], t'[ip]) {
        assert s'[ip] == s.bans[ip] && t'[ip] == t.bans[ip];
      }
    }
  }

  lemma RunLast(site: Site, s: Store, ops: seq<TableOp>, k: nat)
    requires k < |ops|
    ensures TableRun(site, s, ops[..k + 1]) == TableStep(site, TableRun(site, s, ops[..k]), ops[k])
    ensures HoardingRun(site, s, ops[..k + 1]) == Hoarded(site, HoardingRun(site, s, ops[..k]), ops[k])
  {
    assert ops[..k + 1][..k] == ops[..k];
  }

  ghost predicate AlignedAt(m: Mark, site: Site, s: Store, ops: seq<TableOp>, k: nat)
    requires k <= |ops|
  {
    Aligned(m, TableRun(site, s, ops[..k]).bans, HoardingRun(site, s, ops[..k]).bans)
  }

  ghost predicate RepeatsAt(m: Mark, site: Site, s: Store, ops: seq<TableOp>, k: nat)
    requires k < |ops|
  {
    Repeats(m, site, TableRun(site, s, ops[..k]).bans, HoardingRun(site, s, ops[..k]).bans, ops[k])
  }

  lemma {:induction false} RepeatsKeepAligned(m: Mark, site: Site, s: Store, ops: seq<TableOp>, k: nat)
    requires k <= |ops| && forall j: nat :: j < |ops| ==> RepeatsAt(m, site, s, ops, j)
    ensures AlignedAt(m, site, s, ops, k)
    decreases k
  {
    if k > 0 {
      RepeatsKeepAligned(m, site, s, ops, k - 1);
      RunLast(site, s, ops, k - 1);
      assert RepeatsAt(m, site, s, ops, k - 1);
      StepAlignedIff(m, site, TableRun(site, s, ops[..k - 1]), HoardingRun(site, s, ops[..k - 1]), ops[k - 1]);
    } else {
      assert ops[..0] == [];
    }
  }

  /** When expired rows are deleted decides nothing about a mark, at any point of a run, if
      and only if every accepted ban that finds its row cleaned up repeats the mark of it. */
  lemma MarksAlignedIff(m: Mark, site: Site, s: Store, ops: seq<TableOp>)
    ensures (forall k: nat :: k <= |ops| ==> AlignedAt(m, site, s, ops, k))
       <==> (forall k: nat :: k < |ops| ==> RepeatsAt(m, site, s, ops, k))
  {
    if forall k: nat :: k < |ops| ==> RepeatsAt(m, site, s, ops, k) {
      forall k: nat | k <= |ops| ensures AlignedAt(m, site, s, ops, k) {
        RepeatsKeepAligned(m, site, s, ops, k);
      }
    }
    if forall k: nat :: k <= |ops| ==> AlignedAt(m, site, s, ops, k) {
      forall k: nat | k < |ops| ensures RepeatsAt(m, site, s, ops, k) {
        assert AlignedAt(m, site, s, ops, k) && AlignedAt(m, site, s, ops, k + 1);
        RunLast(site, s, ops, k);
        StepAlignedIff(m, site, TableRun(site, s, ops[..k]), HoardingRun(site, s, ops[..k]), ops[k]);
      }
    }
  }

  /** The condition can fail: a ban that comes back after its row was deleted is
      attributed anew, one that comes back before is attributed to the first. */
  lemma CleanUpChangesProvenance(site: Site, allow: string -> bool, ip: string)
    requires !Refuses(site, allow, ip)
    ensures exists ops, now ::
              && InOrder(ops) && ip in Active(TableRun(site, Store(map[], []), ops).bans, now)
              && ip in HoardingRun(site, Store(map[], []), ops).bans
              && !SameMark(ByWhom, TableRun(site, Store(map[], []), ops).bans[ip],
                           HoardingRun(site, Store(map[], []), ops).bans[ip])
  {
    var start := Store(map[], []);
    var first := AddBan(allow, ip, "scan", "", 1.0, "auto", 0.0);
    var again := AddBan(allow, ip, "scan", "", 1.0, COMMUNITY, 3.0);
    var ops := [first, Expire(2.0), again];
    var one, two := [first], [first, Expire(2.0)];
    assert ops[..2] == two && two[..1] == one && one[..0] == [];
    assert TableRun(site, start, one) == TableStep(site, start, first);
    assert HoardingRun(site, start, one) == TableStep(site, start, first);
    assert TableRun(site, start, two) == TableStep(site, TableRun(site, start, one), Expire(2.0));
    assert HoardingRun(site, start, two) == HoardingRun(site, start, one);
    assert TableRun(site, start, ops).bans[ip].bannedBy == COMMUNITY;
    assert HoardingRun(site, start, ops).bans[ip].bannedBy == "auto";
    assert InOrder(ops) && ip in Active(TableRun(site, start, ops).bans, 3.0);
  }
}
