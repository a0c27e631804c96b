/** The ban table of one node (secwatch/ban.py): policy, upsert, and what is passed on. */
module Bans {
  import opened Collections
  import opened Windows

  const CLUSTER := "cluster"
  const CLUSTER_COLON := "cluster:"
  const COMMUNITY := "community"
  const REASON_LIMIT := 300

  /** A row of the bans table; its key is the IP. */
  datatype Ban = Ban(rule: string, reason: string, created: Time, expires: Time, bannedBy: string)

  /** A ban on the wire, and in the cluster outbox. */
  datatype Entry = Entry(ip: string, rule: string, reason: string, expires: Time, origin: string)

  /** The node's name and its fixed ban policy; address tests are not interpreted. */
  datatype Site = Site(
    name: string, clustered: bool, ttlHours: Time,
    valid: string -> bool, trusted: string -> bool, exempt: string -> bool)

  datatype Store = Store(bans: map<string, Ban>, outbox: seq<Entry>)

  /** `allow` is the never-ban list at the moment of the call. */
  predicate Refuses(site: Site, allow: string -> bool, ip: string) {
    !site.valid(ip) || site.trusted(ip) || site.exempt(ip) || allow(ip)
  }

  /** A conflict on the IP renews expiry, rule and reason; creation time and
      `banned_by` stay those of the first row. */
  function Upserted(bans: map<string, Ban>, ip: string, row: Ban): map<string, Ban> {
    if ip in bans then bans[ip := bans[ip].(expires := row.expires, rule := row.rule, reason := row.reason)]
    else bans[ip := row]
  }

  /** Bans received from a peer or from the community are never passed on. */
  predicate PassesOn(bannedBy: string) { bannedBy != COMMUNITY && !(CLUSTER <= bannedBy) }

  /** `add`: the store afterwards and whether the ban was accepted. */
  function Banned(site: Site, allow: string -> bool, s: Store, ip: string, rule: string, reason: string,
                 ttl: Time, bannedBy: string, now: Time): (Store, bool) {
    if Refuses(site, allow, ip) then (s, false)
    else
      (Store(Upserted(s.bans, ip, Ban(rule, Clip(reason, REASON_LIMIT), now, now + ttl, bannedBy)),
             if PassesOn(bannedBy) && site.clustered then s.outbox + [Entry(ip, rule, reason, now + ttl, site.name)]
               else s.outbox),
       true)
  }

  function Active(bans: map<string, Ban>, now: Time): set<string> {
    set ip | ip in bans && bans[ip].expires > now
  }

  /** `expire_and_sync` on the table. */
  function Kept(bans: map<string, Ban>, now: Time): map<string, Ban> {
    map ip | ip in bans && bans[ip].expires > now :: bans[ip]
  }

  /** What a call means: a ban is refused exactly when the policy says so, and then nothing
      changes; an accepted one is active for its time to live and not beyond, whatever row
      there was, which keeps its creation time and attribution; no other IP is touched; and
      one entry is queued exactly when the ban was made here and the node is clustered. */
  lemma BannedMeans(site: Site, allow: string -> bool, s: Store, ip: string, rule: string, reason: string,
                    ttl: Time, bannedBy: string, now: Time)
    ensures var (s', ok) := Banned(site, allow, s, ip, rule, reason, ttl, bannedBy, now);
            && (ok <==> site.valid(ip) && !site.trusted(ip) && !site.exempt(ip) && !allow(ip))
            && (!ok ==> s' == s)
            && (ok ==> forall t :: ip in Active(s'.bans, t) <==> t < now + ttl)
            && (ok ==> s'.bans - {ip} == s.bans - {ip})
            && (ok ==> ip in s'.bans && s'.bans[ip].created == (if ip in s.bans then s.bans[ip].created else now)
                       && s'.bans[ip].bannedBy == (if ip in s.bans then s.bans[ip].bannedBy else bannedBy))
            && (ok ==> s.outbox <= s'.outbox
                       && (|s'.outbox| == |s.outbox| + 1
                           <==> bannedBy != "community" && !("cluster" <= bannedBy) && site.clustered))
            && (ok && s'.outbox != s.outbox ==> s'.outbox[|s.outbox|] == Entry(ip, rule, reason, now + ttl, site.name))
  {
  }
}
