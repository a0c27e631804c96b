# A verified model of secwatch

secwatch watches access logs, bans hostile addresses at the edge and gossips bans between
nodes. This project models its three state machines and four smaller cores in Dafny and
proves what they promise over whole runs.

- **Detection** (`Windows`, `Detect`, `DetectExact`, `Alerts`, `Traffic`, `Engine`, `Raising`, `Forgetting`,
  `EnumerationLimits`, `WindowLimits`, `SharedNames`, `UpToCounts`, `EngineObject`): the engine that trims,
  purges, prunes, suppresses and buffers is compared with a naive engine that keeps every record
  and looks everything up.
- **The feed** (`Tail`, `CrashSafety`): a reader of growing log files, the offsets and counters
  that are committed together, and crashes at any point.
- **The cluster**: the update campaign (`Campaign`, `Flood`), ban gossip (`BanGossip`, `BanMesh`,
  `BanSpread`, `ClusterNodes`, `Reshares`) and roster gossip (`Roster`, `RosterGossip`), each first for one
  node and then for a mesh of nodes and messages.
- **The ban table and the edge** (`Bans`, `Edge`, `BanTables`).
- **Smaller cores**: the community aggregator (`Aggregator`), live log sources against a restart
  (`LogSources`), session tokens (`Session`). `Collections` holds shared map facts.

The objects of the program are classes (`EngineObject.DetectionEngine`, `Tail.Follower`,
`Campaign.Node`, `BanTables.BanTable`, `ClusterNodes.ClusterNode`, `RosterGossip.RosterStore`,
`Aggregator.Service`, `LogSources.Manager`). Each method is tied to a function on values that says
what it does; the runs and invariants are proved about those functions.

Check everything with `dafny verify --resource-limit 2000000 dfyconfig.toml`.

## What the proofs found

- An enumeration rule decides as a recount of the distinct IDs in its window exactly when its
  limit is at most 1, or above 8 with a window of at most 3600 s. With limits from 2 to 8, IDs that
  left the window still count, because they are purged only when more than 8 are stored; a window
  of more than an hour is forgotten by pruning (`EnumerationLimits.ExactIff`). With a limit of at
  most 1 only the count on an event can be wrong (`UpToCounts.RunRefinesUpToCounts`).
- A rule that counts hits does so exactly when its limit is at most 1 or its window at most 3600 s,
  the age at which pruning forgets an idle window (`WindowLimits.ExactIff`).
- Rules of one name share a deque if both count hits, and a dictionary if both count IDs. Two rules
  that count hits and can fire must not have one name (`SharedNames.CountsExactlyIff`). Rules that
  count IDs may, unless one enters an ID that is not the other's, or purges for a shorter window:
  `DetectExact.Disturbs` is the exact condition (`SharedNames.TellsIff`). Privileged rules may share
  any name.
- `_event` comments that record-only events never re-ban. The code does not look at `record_only`
  before the ban callback; the model follows the code. `Alerts.RecordOnlyBansIff` says for every
  record-only event whether it bans, and `Alerts.RecordOnlyNeverBansIff` and
  `Engine.RunRecordOnlyNeverBansIff` that the comment is right exactly under a policy that bans
  nothing at all.
- A ban that is adopted with less than 72 s left gets 72 s again, and the gossip interval is 60 s,
  so two nodes can keep an expired ban alive between them for ever (`BanSpread.BanOutlives`).
  `BanSpread.GossipBreaksBoundIff` says exactly when a step lengthens a ban,
  `BanSpread.RunStaysBoundedIff` when a run does, and `BanSpread.BanEnds` that a ban ends everywhere
  when it does not.
- The re-push of a leaf is documented as its locally originated bans. The code goes by
  `banned_by`, which a later ban of the same address does not change. So the re-push also sends a
  community ban, which the outbox leaves out, with or without a row of the node's own before it; a
  peer's ban adopted on an expired row of the node's own; and the node's own ban that came back from
  a peer. It never sends the node's own ban of an address that was relayed to it first
  (`Reshares.SecondBanFails`, `Reshares.FirstMarkDecides`, `BanMesh.OwnBanComesBack`). It is exactly
  the node's own bans, at every point of a run, if and only if every accepted ban goes out by the
  mark of its row exactly if it passes on by itself (`Reshares.ReshareExactIff`).
- Deleting expired rows never changes which bans are active (`BanTables.CleanUpIsInvisible`). It
  changes the attribution or the creation time of a returning ban unless that ban repeats the
  attribution or time of the deleted row (`BanTables.CleanUpKeepsMarkIff`; over whole runs
  `BanTables.MarksAlignedIff`). Above 500 active bans this decides which are enforced.
- A ban that renews a row keeps the age of that row, and the edge takes the newest 500. So an
  accepted ban is sure to be enforced exactly when fewer than 500 other active bans are at least as
  new as its row (`BanTables.AcceptedIsEnforcedIff`).
- One banned address can spoil the file of an edge for all of them. The Traefik rule stands
  unescaped in a double-quoted YAML scalar and is read back by the model's reader exactly when no address contains a
  backtick, a double quote, a backslash, a line break or an unprintable character
  (`Edge.RuleReadsBack`); the nginx include, exactly when every address is one word of its
  configuration (`Edge.DenyReadsBack`). An IPv6 zone id may contain any of these.
- The fixed rate window of the aggregator lets at most 2 L - 1 reports of one reporter into any
  closed minute, and that many get through for every limit L (`Aggregator.RateHolds`,
  `Aggregator.BoundReached`).
- Removing a dashboard source leaves the live list as a restart would rebuild it exactly when its
  path is not also configured in the YAML (`LogSources.RemoveConsistentIff`).

## Assumptions

- The clock is nondecreasing within a node's run and frozen within one step; time is real.
- Each node handles one thing at a time. Messages between nodes are asynchronous: they may be
  delayed, reordered or lost, and bans may also arrive twice. `receive_update_campaign` pushes
  synchronously before it records (secwatch/cluster.py:478-480); deliveries nested inside that
  push are not covered by the flood results.
- A requested fleet update carries a timestamp no older than the node's own `campaign_ts`, which
  the code assigns without comparing (secwatch/cluster.py:449).
- Log files only grow, keep their inode, and have one byte per character and `\n` line ends: the
  tailer rewinds a byte offset by a character count (secwatch/tailer.py:44).
- A database commit is atomic, and counters and offsets are written between two commits.
- Node names are not empty, and a node is addressed by its name.
- A double-quoted YAML scalar, the quoted IPs of a Traefik rule and the words of the nginx
  configuration are read by functions of the model (after sections 5.1, 5.4 and 7.3.1 of YAML 1.2,
  and nginx's lexer). They are stricter than the real readers: a reader of YAML must accept some
  more unprintable characters, and nginx keeps a backslash before most characters and the brace of
  `${`. The "only if" halves of the results about the files are about these readers.
- Address tests, request signatures, log parsing, JSON, HMAC, the never-ban list, mutes and the
  validation of a log source are functions that the model does not look into; JSON is assumed to
  read back what it wrote.

## Model

| member | source | states |
|---|---|---|
| `Windows.TrimmedIsWindow` | secwatch/detect.py:313-316 | trimming a sorted deque leaves exactly the stamps at or after the cutoff |
| `Windows.TrimmedKeepsCounts` | secwatch/detect.py:313-316 | trimming changes no count from the cutoff on |
| `Windows.TrimmedLength` | secwatch/detect.py:202-205 | the length of a trimmed sorted deque is the number of stamps in the window |
| `Windows.Trim` | secwatch/detect.py:313-316 | the popping loop computes the trimmed deque |
| `Windows.CountRecent` | secwatch/detect.py:207 | the counting loop of the flood rule counts the stamps of its window |
| `Detect.VolumesAtMostOnce` | secwatch/detect.py:202-241 | a record raises each volume rule at most once, whatever state the engine is in |
| `Detect.HigherCountsRaiseMore` | secwatch/detect.py:202-241 | a record that raises a volume rule still does, as severely and with no lower count, when any of the counts is higher |
| `Detect.EndpointEventsAreHits` | secwatch/detect.py:245-290 | every endpoint event comes from a rule that the record hits, with its severity, and has reached its limit unless the endpoint is privileged |
| `Detect.ProbeIsHighIff` | secwatch/detect.py:170-197 | a probe is a high event if and only if an untrusted source asks for a secret file or succeeds on a known real backend |
| `Detect.TrustedStaysInfo` | secwatch/detect.py:168-200 | a trusted source never raises anything above info |
| `Detect.PrunedIs` | secwatch/detect.py:408-423 | pruning forgets exactly the IPs that were idle for an hour, or five minutes above 20000, and the rule windows with nothing of the last hour |
| `DetectExact.SeriesAdvances` | secwatch/detect.py:158-166 | after a record a lazily trimmed deque counts what the whole history counts, and its length is the naive count |
| `DetectExact.SeriesForgotten` | secwatch/detect.py:408-420 | a deque that ended before its window may be dropped without changing any later count |
| `DetectExact.IdsTurn` | secwatch/detect.py:278-285 | a hit that enters its ID and purges for a window no shorter than the rule's keeps the stored IDs in agreement with the distinct IDs of the history; any purge does if the rule has at most 8 IDs |
| `DetectExact.RulesInTurn` | secwatch/detect.py:245-290 | while the rules are tried in turn, the store of an undisturbed rule agrees with the history before its turn and with the record added after it |
| `DetectExact.ComparedCounts` | secwatch/detect.py:258-290 | what an undisturbed rule compares with its limit is the recount; for an enumeration rule it is the recount, or at least the recount and at most 8 |
| `DetectExact.NamesAreEnough` | secwatch/detect.py:260-279 | windows of at most an hour, and names that differ between rules that can fire and use the same kind of store, are enough for the two results below and the refinement |
| `DetectExact.VolumesDecide` | secwatch/detect.py:202-241 | the volume events are those of a recount over the whole history |
| `DetectExact.EndpointsDecide` | secwatch/detect.py:245-290 | if every rule that can fire is undisturbed by others of its name, has a window of at most an hour and, for enumeration, a limit above 8, the endpoint-rule events, in order and with their counts, are those of a recount over the whole history |
| `DetectExact.FeedDecides` | secwatch/detect.py:146-243 | under the same condition on the rules all events of a record, in order and with their counts, are those of the naive recount |
| `DetectExact.FeedKeeps` | secwatch/detect.py:146-243 | feeding a record keeps every window of every IP, and of every undisturbed rule of at most an hour, in agreement with the history, whatever other rules there are |
| `DetectExact.PruneKeeps` | secwatch/detect.py:408-423 | pruning keeps the agreement in both of its modes, whatever the rules |
| `Raising.RecountIs` | secwatch/detect.py:152-166 | the recount of a series is the number of its records in the history, with the status, login and hit tests spelled out |
| `Raising.ProbesAre` | secwatch/detect.py:170-197 | the one event of a probe, with its severity by trust, status and what is known of the host |
| `Raising.QueuedIff` | secwatch/detect.py:190-196 | a host is queued for classification if and only if an untrusted probe of it succeeded and nothing is known of it |
| `Raising.VolumesAre` | secwatch/detect.py:202-241 | the scan, flood, scripted, crawler and credential-stuffing events, each if and only if its number of records reaches its limit |
| `Raising.EndpointsAre` | secwatch/detect.py:245-290 | in any state the endpoint events are exactly those of the rules that the record hits by host, pattern and status, and whose number reaches the limit, unless the endpoint is privileged |
| `Raising.SoundRuleRaises` | secwatch/detect.py:245-290 | a sound rule that is hit raises its event, with the number, when the history brings it to its limit, whatever other rules there are |
| `Raising.FeedRaisesIff` | secwatch/detect.py:146-290 | a record raises exactly the events that the history calls for |
| `Raising.RunRecordsRaised` | secwatch/detect.py:146-362 | on every run an event that the history calls for is in the table, or an event of its key from the last 600 s is |
| `Raising.RunRecordsHits` | secwatch/detect.py:245-362 | the same for one sound rule, whatever the others are |
| `Forgetting.HourForgets` | secwatch/detect.py:418-423 | a flush more than an hour after the last step forgets every deque and dictionary of every rule |
| `EnumerationLimits.StaleIdsMisfire` | secwatch/detect.py:281-286 | for every limit from 2 to 8 and every window a run in which stale IDs reach the limit although the window holds fewer |
| `EnumerationLimits.ExactIff` | secwatch/detect.py:278-290 | an undisturbed enumeration rule decides as a recount does on every run if and only if its limit is at most 1, or above 8 with a window of at most 3600 s |
| `WindowLimits.ExactIff` | secwatch/detect.py:258-277 | an undisturbed rule that counts hits decides as a recount does on every run if and only if its limit is at most 1 or its window at most 3600 s |
| `SharedNames.TellsIff` | secwatch/detect.py:245-290 | the store of a rule that can fire tells its own hits, or IDs, at every point of every run if and only if no other rule disturbs it and its window is at most 3600 s |
| `SharedNames.CountsExactlyIff` | secwatch/detect.py:258-277 | with windows of at most 3600 s the hit counts compared with the limits are exact on every run if and only if no two rules that count hits and can fire have one name |
| `SharedNames.SharedNameMiscounts` | secwatch/detect.py:260-273 | a record that hits another rule of the name, and then one that hits the rule, are counted wrongly, whatever the two rules |
| `Alerts.RecordedAgrees` | secwatch/detect.py:318-349 | suppression and cooldown gates append the same row as a look at the last 10 and 30 minutes of the events table |
| `Alerts.AlertsIff` | secwatch/detect.py:318-339 | a report whose key had an event in the last 600 s changes nothing; any other leaves its row, and alerts if and only if it is not record-only, severe enough, not routine, not muted, and the key had no alert in the last 1800 s |
| `Alerts.BansIff` | secwatch/detect.py:359-362 | any report calls the ban callback if and only if its gate is open, auto-ban is on, it is a high event of a ban rule, and its address is neither empty nor trusted nor an exempt internal one |
| `Alerts.PrunedGatesAgree` | secwatch/detect.py:415-417 | forgetting gates that ran out is invisible |
| `Alerts.PrunedGatesAre` | secwatch/detect.py:415-417 | pruning forgets exactly the gates that ran out |
| `Alerts.NaiveKeepsSpacing` | secwatch/detect.py:318-339 | recording keeps events of a key 600 s and alerts 1800 s apart |
| `Alerts.AlertsBounded` | secwatch/config.py:328-329 | a spaced table holds at most 1 + floor(L / 1800) alerts of a key in any span of L seconds |
| `Alerts.RecordOnlyBansIff` | secwatch/detect.py:318-362 | a record-only event never alerts, and calls the ban callback if and only if its gate is open, auto-ban is on, it is a high event of a ban rule, and its address is neither empty nor trusted nor an exempt internal one |
| `Alerts.RecordOnlyNeverBansIff` | secwatch/detect.py:323-362 | no record-only event bans, whatever the gates, if and only if the policy has auto-ban off, no ban rules or no address to ban |
| `Engine.RunIsSpaced` | secwatch/detect.py:318-362 | on every run with prunings, events of a key are 600 s apart and alerts 1800 s |
| `Engine.RunBoundsAlerts` | secwatch/config.py:328-329 | on every run any span of L seconds holds at most 1 + floor(L / 1800) alerts of a key |
| `Engine.RunJustifiesCalls` | secwatch/detect.py:325-362 | on every run every alert met severity and noise policy, and the ban callback ran for exactly the high events of a ban rule from addresses that may be banned |
| `Engine.RunAlertsIff` | secwatch/detect.py:318-339 | on every run each row of the events table is of some operation, and the alert callback ran for it if and only if that operation had to alert |
| `Engine.EmittedIs` | secwatch/detect.py:299-309 | an event of another collector has the severity for trusted sources if and only if it has a source and that source is trusted |
| `Engine.RunRecordOnlyNeverBansIff` | secwatch/web.py:1164-1169 | on every run no record-only event of a leaf bans, if and only if the policy bans nothing at all |
| `Engine.RunKeepsTracks` | secwatch/detect.py:146-290 | on every run all windows of all IPs and all undisturbed rules of at most an hour agree with the whole history |
| `Engine.RunRefinesNaive` | secwatch/detect.py:146-423 | the engine writes exactly the events, alerts and bans of the naive engine that keeps every record, when every rule that can fire is undisturbed and of at most an hour and, for enumeration, has a limit above 8 |
| `UpToCounts.RunRefinesUpToCounts` | secwatch/detect.py:245-362 | count apart, the engine still writes the events, alerts and bans of the naive one when rules with a limit of at most 1 need not meet those conditions |
| `Engine.RunConservesTraffic` | secwatch/detect.py:152-161 | on every run table plus buffer is what was fed, per minute; per-IP rows sum to the minute's row; s4xx + s5xx <= requests |
| `Traffic.FeedAccounts` | secwatch/detect.py:152-161 | feeding a record adds it to every column that has to count it, and to no other |
| `Traffic.MinuteOfIs` | secwatch/detect.py:150-161 | what a column has to count is the number of its records, by status, in the sixty seconds of a minute |
| `Traffic.FlushAccounts` | secwatch/detect.py:380-395 | a flush moves the buffer into the tables without losing or doubling anything |
| `Traffic.FlushBalances` | secwatch/detect.py:380-395 | a flush keeps every traffic row equal to the sum of its minute's per-IP rows |
| `Traffic.TotalMerged` | secwatch/detect.py:380-395 | a column's total after a flush is the table's plus the buffer's |
| `Engine.FlushIs` | secwatch/detect.py:375-406 | a flush happens if and only if it is forced or five seconds passed; then counters move and gates, windows and IPs are pruned, otherwise nothing changes |
| `EngineObject.AddAll` | secwatch/detect.py:380-393 | the upsert loop adds every buffered entry to the table's |
| `EngineObject.Without` | secwatch/detect.py:413-423 | a deletion loop removes exactly the given keys |
| `EngineObject.Overwrite` | secwatch/detect.py:396-403 | the loop over changed offsets overwrites exactly those |
| `EngineObject.DetectionEngine.RecordEvent` | secwatch/detect.py:318-362 | gates and events table afterwards; every callback belongs to a recorded event, in order |
| `EngineObject.DetectionEngine.Alerting` | secwatch/detect.py:325-339 | an event alerts if and only if policy wants it and the cooldown is over |
| `EngineObject.DetectionEngine.CheckEndpoints` | secwatch/detect.py:245-290 | the windows and events after all rules were tried in turn |
| `EngineObject.DetectionEngine.Count` | secwatch/detect.py:260-286 | the window of one rule after a hit, and the number that is compared with the limit |
| `EngineObject.DetectionEngine.FeedRecord` | secwatch/detect.py:146-243 | the whole engine state after a record, and the hosts queued for classification |
| `EngineObject.DetectionEngine.Emit` | secwatch/detect.py:292-309 | the engine state after an event of another collector |
| `EngineObject.DetectionEngine.MaybeFlush` | secwatch/detect.py:375-406 | counters, offsets and pruning after a flush, and nothing when it is not due |
| `EngineObject.DetectionEngine.PruneIdle` | secwatch/detect.py:408-423 | what pruning forgets and what it keeps |
| `EngineObject.DetectionEngine.TailRound` | secwatch/web.py:251-259 | feed, offset and flush of one yielded line or heartbeat |
| `Tail.LinesGrow` | secwatch/tailer.py:38-47 | lines that were complete stay what they were when the file grows |
| `Tail.LinesSnoc` | secwatch/tailer.py:38-41 | reading one more complete line adds exactly that line |
| `Tail.YieldedIs` | secwatch/tailer.py:38-47 | at the end of the file a heartbeat, before a newline the line up to it, otherwise nothing and no move |
| `Tail.StartAtIs` | secwatch/tailer.py:30-33 | an offset is resumed if and only if the inode is the same and the file long enough |
| `Tail.Follower.constructor` | secwatch/tailer.py:30-33 | where a reader starts: the saved offset if the inode matches and the file is long enough, else the start or the end |
| `Tail.Follower.ReadLine` | secwatch/tailer.py:38 | the text up to and including the next newline, or the rest |
| `Tail.Follower.Next` | secwatch/tailer.py:38-47 | a complete line, a heartbeat, or nothing with the cursor put back before a partial line |
| `CrashSafety.CommittedIsExact` | secwatch/web.py:237-259 | in every committed state, after any crashes and resumes, each table column counts exactly the complete parsable lines before the committed offsets |
| `CrashSafety.DrainedCountsOnce` | secwatch/web.py:237-259 | once the readers caught up and a flush ran, every complete line of every file is counted exactly once |
| `CrashSafety.CatchesUp` | secwatch/web.py:251-259 | from every state polls alone read every complete line of every file |
| `CrashSafety.EveryLineGetsCounted` | secwatch/web.py:237-259 | however a run went, some polls and a flush complete it so that every complete line is counted exactly once in every column |
| `CrashSafety.CrashKeeps` | secwatch/tailer.py:28-33 | a crash loses the buffer and the cursors but not the agreement of committed counters and offsets |
| `CrashSafety.TailRoundIsPoll` | secwatch/web.py:251-259 | what the engine object promises for a round is the round of the crash model |
| `Campaign.AppliedAdvances` | secwatch/cluster.py:419-440 | neither timestamp goes back; an update starts if and only if the campaign is newer than everything applied, remote updates are allowed and the update succeeds |
| `Campaign.FailedUpdateRetries` | secwatch/cluster.py:434-440 | a failed update leaves the campaign eligible for retry |
| `Campaign.BestIsMax` | secwatch/cluster.py:487-497 | the tracked best answer is the largest positive one |
| `Campaign.PolledIsMax` | secwatch/cluster.py:483-497 | a poll leaves `campaign_ts` at the maximum of its own and all answers |
| `Campaign.PollUpdatesIff` | secwatch/cluster.py:487-497 | a poll starts an update if and only if it is allowed, succeeds, and some positive answer is newer than everything applied; then the newest answer is applied |
| `Campaign.HeardAre` | secwatch/cluster.py:487-495 | the answers that count are exactly those that arrived |
| `Campaign.Node.MaybeApply` | secwatch/cluster.py:419-440 | record and started update of one node |
| `Campaign.Node.Push` | secwatch/cluster.py:458-467 | one message to every queryable peer, in order |
| `Campaign.Node.Request` | secwatch/cluster.py:443-455 | the initiator marks its own campaign applied and pushes it to every peer |
| `Campaign.Node.Receive` | secwatch/cluster.py:470-480 | a new campaign is passed on to every peer, then looked at; an old one is not passed on |
| `Campaign.Node.Poll` | secwatch/cluster.py:483-497 | the record after the loop over the answers that arrived |
| `Flood.RunRemembers` | secwatch/cluster.py:419-480 | on every run `applied_ts` never decreases, self-updates of a node have strictly increasing timestamps, the initiator never applies its own, an unwilling node none, and no node passes a campaign on twice |
| `Flood.RequestIs` | secwatch/cluster.py:443-455 | a request is noted, recorded as known and applied, and sent to every peer once |
| `Flood.DeliverIs` | secwatch/cluster.py:470-480 | a delivery passes its campaign on if and only if it is newer than the one known, and starts an update if and only if it is newer than all applied, allowed and successful |
| `Flood.PollIs` | secwatch/cluster.py:483-497 | a poll in the mesh starts an update if and only if some node asked knows a positive campaign newer than all applied, and it is allowed and successful |
| `Flood.RunKeepsUp` | secwatch/cluster.py:419-440 | on every run on which no update fails, willing nodes have applied what they know of |
| `Flood.DeliverBurns` | secwatch/cluster.py:470-480 | every delivery lowers the measure of in-flight messages plus (degree + 1) times the campaigns still unheard of |
| `Flood.FloodEnds` | secwatch/cluster.py:458-480 | once requests stop, the number of deliveries is bounded by that measure |
| `Flood.RunCovers` | secwatch/cluster.py:458-480 | without losses and polls every push edge has its campaign arrived or on its way, on every run |
| `Flood.FloodReachesAll` | secwatch/cluster.py:443-480 | when no message is left every node reachable from the initiator knows the campaign |
| `Flood.FloodUpdatesAll` | secwatch/cluster.py:443-480 | and if no update fails, every willing node on a push path from the initiator has applied it |
| `Flood.UntoldIsCovered` | secwatch/cluster.py:405-409 | a mesh with no recorded campaign is a valid start for the results on runs |
| `Flood.PollsCarry` | secwatch/cluster.py:483-503 | polls along a path carry a campaign from its start to its end, whatever else happens |
| `Flood.PollsUpdate` | secwatch/cluster.py:483-503 | and if no update fails, a willing node at the end of the path has applied it |
| `Bans.BannedMeans` | secwatch/ban.py:31-59 | a ban is refused exactly by policy and then changes nothing; an accepted one is active exactly for its time to live, keeps an earlier creation time and attribution, and is queued exactly when made here on a clustered node |
| `Edge.RuleReadsBack` | secwatch/banactuators.py:57-60 | the Traefik file reads back as a rule that matches exactly the given IPs, in order, if and only if none of them contains a backtick, a double quote, a backslash, a line break or an unprintable character |
| `Edge.RuleMatchesIff` | secwatch/banactuators.py:57-60 | the rule parses as matchers of client addresses joined by "||", and a request matches it if and only if its client is on the list, when no address contains a backtick |
| `Edge.TraefikDeniesIff` | secwatch/banactuators.py:34-60 | the file turns a client away if and only if its rule can be read and matches |
| `Edge.ScalarReadsBack` | secwatch/banactuators.py:37-43 | the quoted scalar around the rule reads back as the rule if and only if every character of it stands for itself |
| `Edge.DenyReadsBack` | secwatch/banactuators.py:109-110 | the nginx include is read back as the given IPs, in order, if and only if each of them is one plain word of the configuration |
| `Edge.NftReconciles` | secwatch/banactuators.py:77-91 | the nft commands leave exactly the given addresses in the set, whatever was in it |
| `Edge.V4OnlyKeeps` | secwatch/banactuators.py:96 | the filter keeps exactly the addresses of the list without a colon |
| `Edge.NftDeniesIff` | secwatch/banactuators.py:94-129 | the nft set holds exactly the first 500 addresses of the list that have no colon |
| `Edge.PlainIsHandled` | secwatch/banactuators.py:57-110 | every actuator that enforces bans handles addresses of hexadecimal digits, dots and colons; nftables those without a colon |
| `Edge.RenderedReadsIff` | secwatch/banactuators.py:128-134 | the file that an actuator writes reads back as the first 500 of the list if and only if it handles each of them: one other address spoils it |
| `Edge.RenderedDenies` | secwatch/banactuators.py:128-134 | every actuator denies exactly the first 500 of the list, as far as it handles the addresses; a file has to be readable for that |
| `Edge.SyncedDenies` | secwatch/ban.py:71-92 | a synced edge denies exactly the newest 500 active bans that the actuator handles; all of them when there are at most 500; no active address may spoil a file |
| `Edge.EnforcedIff` | secwatch/banactuators.py:129 | an active ban is enforced after every sync if and only if the actuator handles its address and fewer than 500 other active bans are at least as new |
| `Edge.StillEnforced` | secwatch/ban.py:88-92 | as time passes every still active ban is enforced, if at most 500 were active at the last sync |
| `BanTables.BanTable.constructor` | secwatch/web.py:309 | at boot expired rows go and the edge is synced |
| `BanTables.BanTable.Listing` | secwatch/ban.py:71-75 | the active IPs, each once, newest ban first |
| `BanTables.BanTable.WriteFile` | secwatch/ban.py:88-92 | the edge is what the actuator makes of the bans active now |
| `BanTables.BanTable.Add` | secwatch/ban.py:31-59 | table and outbox after a ban; an accepted one syncs the edge, a refused one changes nothing |
| `BanTables.BanTable.Remove` | secwatch/ban.py:62-68 | the row is gone; the edge is rewritten exactly when there was one |
| `BanTables.BanTable.ExpireAndSync` | secwatch/ban.py:78-85 | exactly the expired rows are gone and the edge is synced |
| `BanTables.AcceptedIsEnforcedIff` | secwatch/ban.py:42-48 | an accepted ban is enforced after its sync, however ties are listed, if and only if the actuator handles the address and fewer than 500 other active bans are at least as new as its row |
| `BanTables.CleanUpIsInvisible` | secwatch/ban.py:78-85 | over any run, when expired rows are deleted changes no active ban, expiry, rule or reason, and nothing that is queued |
| `BanTables.CleanUpKeepsMarkIff` | secwatch/ban.py:44-50 | deleting expired rows at the moment of an accepted ban leaves its attribution, or its creation time, as it would be if and only if there was no expired row of the IP or one with the same |
| `BanTables.MarksAlignedIff` | secwatch/ban.py:44-85 | over a run, when expired rows are deleted changes no attribution (or creation time) at any point if and only if every accepted ban that finds its row deleted repeats that row's |
| `BanTables.CleanUpChangesProvenance` | secwatch/ban.py:44-50 | the condition fails on a run from an empty table: a ban that returns after its row was deleted is attributed anew |
| `BanGossip.AppliedRow` | secwatch/cluster.py:247-262 | what becomes of each row when a batch is applied: untouched, or expiry, rule and reason of the last entry taken and the attribution of the first row |
| `BanGossip.AppliedActivates` | secwatch/cluster.py:247-262 | after a batch every unexpired ban in it that is not refused is active |
| `BanGossip.ActiveStays` | secwatch/cluster.py:251-256 | a batch leaves active rows as they are |
| `BanGossip.AppliedTwice` | secwatch/cluster.py:247-262 | applying the same batch again changes nothing |
| `BanGossip.OwnIsPart` | secwatch/cluster.py:327 | the re-push is exactly the part of the blocklist with the node as origin |
| `BanMesh.StepKeepsProvenance` | secwatch/cluster.py:239-333 | every kind of step keeps provenance |
| `BanMesh.RunKeepsProvenance` | secwatch/cluster.py:239-333 | on every run each row and each ban on the wire names a node that accepted a ban of that IP outside the cluster path, and each outbox holds only its own node's bans that are neither the cluster's nor the community's |
| `BanMesh.MadeOnlyLocally` | secwatch/ban.py:54-58 | only an accepted local ban adds to that record |
| `BanMesh.EmptyIsVouched` | secwatch/ban.py:39-59 | a mesh before its first ban meets the starting conditions of these results |
| `BanMesh.RunKeepsMarks` | secwatch/cluster.py:247-262 | on every run a `banned_by` that begins with "cluster" goes on with a colon and the name of a node that accepted a ban of the IP |
| `BanMesh.OwnBanComesBack` | secwatch/cluster.py:276-284 | a node that lifted its own ban and pulls from a peer that relays it holds it as relayed by itself |
| `BanSpread.GossipBounds` | secwatch/cluster.py:257-260 | a gossip step never raises the latest expiry of an IP, messages included, above max(previous, now + 72 s) |
| `BanSpread.GossipBreaksBoundIff` | secwatch/cluster.py:257-260 | a gossip step exceeds a bound if and only if it adopts the ban and now + 72 s does |
| `BanSpread.RunStaysBoundedIff` | secwatch/cluster.py:247-262 | on a run without new bans of the IP all copies stay within a bound at every point if and only if none is adopted less than 72 s before it |
| `BanSpread.BanEnds` | secwatch/cluster.py:247-262 | if no ban of the IP is made anew, and none adopted less than 72 s before its latest expiry, it is active nowhere past that expiry |
| `BanSpread.BanOutlives` | secwatch/cluster.py:259 | two nodes that each pull from the other every 60 s keep a ban alive for any number of minutes once one adopted it under the floor |
| `BanSpread.LocalQueues` | secwatch/ban.py:54-58 | an accepted ban is queued if and only if it was made here on a clustered node |
| `BanSpread.SentAre` | secwatch/cluster.py:265-333 | a push, an answer and a re-push put one message on its way to each addressee and no other |
| `BanSpread.DeliveredActivates` | secwatch/cluster.py:247-262 | each ban of a message that arrives unexpired and is not refused is active afterwards |
| `BanSpread.PushTravels` | secwatch/cluster.py:265-273 | a ban made on a clustered node reaches a peer by the next push, if it arrives before the ban ends |
| `BanSpread.FloorBanAlternates` | secwatch/ban.py:39-47 | one local ban of 72 s on empty tables is such a start |
| `BanSpread.BanTravels` | secwatch/cluster.py:276-284 | a ban reaches the end of every path of nodes that pull it in turn, whatever else happens, if no running copy ends before |
| `ClusterNodes.ClusterNode.ApplyRemoteBans` | secwatch/cluster.py:247-262 | table and outbox after a batch, the edge synced, and the number of bans applied |
| `ClusterNodes.CountTakenIs` | secwatch/cluster.py:247-262 | the number applied is the number of entries with an address that was not active, not expired and not refused |
| `ClusterNodes.ClusterNode.LocalBlocklist` | secwatch/cluster.py:306-316 | one entry per active ban, newest first, relayed bans under their first origin |
| `ClusterNodes.ClusterNode.PushOutbox` | secwatch/cluster.py:265-273 | the whole queue goes to every peer, and is empty afterwards |
| `ClusterNodes.ClusterNode.ReshareLocalBans` | secwatch/cluster.py:319-327 | the entries of the blocklist with the node as origin |
| `ClusterNodes.Resent` | secwatch/cluster.py:306-327 | the re-push is exactly the active rows whose mark is not another node's, as they stand and with the node as origin |
| `Reshares.ReshareIsLocalIff` | secwatch/cluster.py:319-327 | at any moment the re-push is exactly the active bans that the node made last and passes on, with their last rule, reason and expiry, if and only if the mark of every active row tells whether its last ban passes on |
| `Reshares.StepTellsIff` | secwatch/ban.py:42-48 | an operation keeps the marks telling if and only if a ban that it accepts goes out by the mark of its row exactly if it passes on |
| `Reshares.ReshareExactIff` | secwatch/cluster.py:319-327 | on a run of the table the re-push is exact at every point and time if and only if every accepted ban meets that condition |
| `Reshares.FirstMarkDecides` | secwatch/ban.py:44-46 | a ban that finds a row is re-pushed under the node's name by the first mark of that row, whoever made the ban |
| `Reshares.SecondBanFails` | secwatch/web.py:134-142 | from an empty table: a community ban, or a peer's, on the node's own row goes out; the node's own ban on a relayed row does not |
| `Reshares.ResendsMeans` | secwatch/cluster.py:306-316 | the marks that make a row go out are those that pass on, the community's, and the node's own name |
| `Reshares.MeshIsTableRuns` | secwatch/cluster.py:239-333 | on every run of the mesh the table of each node goes through a run of the table |
| `Reshares.MeshReshares` | secwatch/cluster.py:319-327 | on a run of the mesh in which every ban that a node accepts meets the condition, its re-push at the end is exactly its own bans |
| `Roster.Stripped` | secwatch/cluster.py:80 | the URL without its trailing slashes, all of them and nothing else |
| `Roster.WithPeerFinds` | secwatch/cluster.py:75-88 | an offer is found as entered and every other name as before; empty names and the node itself are ignored |
| `Roster.OfferedIs` | secwatch/cluster.py:75-88 | an offer is ignored if it names nobody or the node itself; otherwise the entry found has the offered role, the offered URL less exactly its trailing slashes, the first-added time and the known version |
| `Roster.MergedSound` | secwatch/cluster.py:75-88 | names stay unique and the node itself is never stored |
| `Roster.MergedKeeps` | secwatch/cluster.py:81-86 | first-added time and known version survive any offers; a version changes only to one that was offered |
| `Roster.MergedView` | secwatch/cluster.py:301-303 | a merge adds exactly the names it was offered |
| `Roster.MergedTeaches` | secwatch/cluster.py:301-303 | after any offers the last one of a name has settled its URL and role |
| `RosterGossip.QueryableAre` | secwatch/cluster.py:95-97 | the queryable peers are those that are not leaves and have a URL |
| `RosterGossip.OfferedIsQueryableIff` | secwatch/cluster.py:75-97 | an offered name can be read from and pushed to if and only if it was offered as no leaf and with more than slashes for a URL |
| `RosterGossip.TellsAll` | secwatch/cluster.py:287-291 | what is sent, and what is answered, is what the roster says of each peer, with URL and role |
| `RosterGossip.ExchangeViews` | secwatch/cluster.py:287-298 | after an answered exchange the peer knows what was sent, the sender what the peer then knows, and all rosters are sound |
| `RosterGossip.ToldViews` | secwatch/cluster.py:292-298 | when the answer is lost only the peer learns, and it learns all that was sent |
| `RosterGossip.FreshExchange` | secwatch/web.py:1111-1119 | an exchange from an up-to-date snapshot makes both views their union |
| `RosterGossip.ExchangeProgress` | secwatch/cluster.py:287-298 | no name is forgotten, and the sum of missing names drops exactly when any view changes |
| `RosterGossip.TalkProgress` | secwatch/cluster.py:287-298 | the same for every exchange, answered or not |
| `RosterGossip.ChangesBounded` | secwatch/cluster.py:287-303 | without removals at most as many exchanges, answered or not, change anything as names are missing |
| `RosterGossip.SettledIff` | secwatch/cluster.py:287-298 | gossip is at a fixpoint if and only if both ends of every link know the same names |
| `RosterGossip.SettledComponentsAgree` | secwatch/cluster.py:287-298 | at a fixpoint all nodes of a connected component know the same names |
| `RosterGossip.AnswerKeepsVersions` | secwatch/web.py:1117-1119 | the answer, which has no versions, changes none that the sender holds |
| `RosterGossip.RosterStore.AddPeer` | secwatch/cluster.py:75-88 | the roster after an offer, still sound |
| `RosterGossip.RosterStore.MergeRoster` | secwatch/cluster.py:301-303 | the roster after all offers, still sound |
| `RosterGossip.RosterStore.QueryablePeers` | secwatch/cluster.py:95-97 | the filter loop returns exactly the queryable peers, in order |
| `RosterGossip.RosterStore.HandleRoster` | secwatch/web.py:1111-1119 | merge first, then answer with the whole roster |
| `RosterGossip.GossipOnce` | secwatch/cluster.py:292-296 | one round trip between two nodes is one exchange of the mesh model |
| `Aggregator.RateHolds` | secwatch/aggregator.py:76-82 | on every run a reporter's accepted reports are within the limit L since its window began, and any closed 60 s hold at most 2 L - 1 |
| `Aggregator.BoundReached` | secwatch/aggregator.py:76-82 | 2 L - 1 accepted reports in a closed minute happen for every positive limit |
| `Aggregator.RowsFollow` | secwatch/aggregator.py:83-90 | the row of a reporter and an IP has the time of its last accepted report |
| `Aggregator.ListedIff` | secwatch/aggregator.py:95-111 | an IP is listed, with their number, if and only if at least the consensus number of distinct reporters, and at least one, reported it last within the days |
| `Aggregator.ReportIs` | secwatch/aggregator.py:68-91 | a report without a reporter or about an address that is not public leaves no trace; any other is stored if and only if its window is within the limit |
| `Aggregator.ListedIsPublic` | secwatch/aggregator.py:74 | on every run every stored and listed IP is public, and every row has a reporter |
| `Aggregator.QuietReporterIsHeard` | secwatch/aggregator.py:76-82 | on every run a proper report is stored if its reporter sent fewer than the limit in the minute before |
| `Aggregator.Service.Report` | secwatch/aggregator.py:68-91 | rate table, reports table and answer after a report |
| `LogSources.BuildLogSources` | secwatch/config.py:118-146 | the two loops compute the rebuilt list |
| `LogSources.ConfiguredAt` | secwatch/config.py:124-134 | every configured entry with a path is watched in its place, with its own type and pattern and under its own name |
| `LogSources.BaseIs` | secwatch/config.py:124-137 | the first of them, and no other, is the primary; without any it is the single access log |
| `LogSources.BuiltWithout` | secwatch/config.py:138-145 | filtering the saved list and filtering the built list agree off the configured paths |
| `LogSources.AddConsistent` | secwatch/logsources.py:192-209 | adding a source leaves the live list as a restart would rebuild it |
| `LogSources.RemoveConsistentIff` | secwatch/logsources.py:211-225 | removing a source does so if and only if its path is not configured |
| `LogSources.AddedIff` | secwatch/logsources.py:192-209 | an addition succeeds if and only if the path is new and fewer than 32 are saved; then it is watched, saved and tailed |
| `LogSources.RemovedIff` | secwatch/logsources.py:211-225 | a removal succeeds if and only if the path is saved; then it is neither watched nor saved nor tailed |
| `LogSources.LiveEqualsRestart` | secwatch/logsources.py:192-225 | after any additions, removals and restarts the live list, in content and order, and the tailed paths are what a restart would rebuild, and the saved list stays within 32 |
| `LogSources.RemoveHitsConfigured` | secwatch/logsources.py:219 | removing a saved path that is also configured stops the configured sources of that path until a restart watches them again |
| `LogSources.Manager.constructor` | secwatch/config.py:118-149 | at boot exactly the rebuilt list is watched and tailed |
| `LogSources.Manager.Add` | secwatch/logsources.py:192-209 | live list, saved list and tasks after an addition; a duplicate or a full list changes nothing |
| `LogSources.Manager.Remove` | secwatch/logsources.py:211-225 | live list, saved list and tasks after a removal; an unknown path changes nothing |
| `Session.DecodeEncode` | secwatch/auth.py:65-70 | decoding an encoding gives the bytes back, for every byte string |
| `Session.B64RoundTrip` | secwatch/auth.py:65-70 | it still does when the padding was stripped and rebuilt from the length; the text has no dot and no equals sign |
| `Session.Vectors` | secwatch/auth.py:65-66 | test vectors of section 10 of RFC 4648 and the letters of section 5 |
| `Session.TokenRoundTrip` | secwatch/auth.py:73-91 | a token names its user until it expires and nobody after that |
| `Session.AcceptedIff` | secwatch/auth.py:80-91 | a token is accepted if and only if it is a payload, a dot and the payload's MAC, with readable claims that have not expired |

## Left out

- EngineObject.DetectionEngine.TouchIp: an IP's state is a value in a map field, not an object of its own; the two gates and the deques are values too, so aliasing between them is not modelled.
- EngineObject.DetectionEngine.RecordEvent: event texts, host, path, device and user agent of a row, and the devices table, are not modelled.
- EngineObject.DetectionEngine.Emit: agent mode, which ships events to another node, is not modelled.
- Engine.RunConservesTraffic: holds before retention deletes old rows.
- CrashSafety.CommittedIsExact: log rotation and truncation, the legacy `tail` key of the primary source, and sources added during a run are not modelled.
- Campaign.Node.Request: the labels `by` and `to_version` of a campaign are not modelled.
- Flood.FloodReachesAll: without polls, because a node that learns a campaign from a poll does not pass it on.
- Edge.RuleReadsBack: the rest of the Traefik file, failing writes, nft failures and the nginx reload are not modelled.
- Edge.DenyReadsBack: the comment lines above the directives are not modelled; nor is nginx's own check of the addresses.
- Edge.RenderedDenies: the address parser of Traefik's `ClientIP`, like nginx's check of addresses, is not modelled; an address that is read counts as denied.
- EngineObject.DetectionEngine.FeedRecord: the time of the last log line, which the watch for silent logs reads, is not modelled.
- EngineObject.DetectionEngine.TailRound: the status counters of a source are not modelled.
- ClusterNodes.ClusterNode.PushOutbox: the peers come as a list of names, and a failed push is a lost message.
- RosterGossip.RosterStore.AddPeer: the roster is a field, not a JSON file; agreement on URLs and roles (the last writer wins) and peer removal during gossip are not claimed.
- Session.AcceptedIff: reads well-formed text only; Python's decoder also skips letters outside the alphabet. A malformed payload matters only under a valid signature.
- Aggregator.Service.Report: authentication is not modelled, and a restart, which forgets the rate windows, is not part of a run.
- LogSources.Manager.Add: validation of name, path, type and pattern, including the file system tests, is a parameter.
- Order of the published community list, crowd reports, enrollment, join and leave, federated views, leaf event push, and the JSON files' concurrent rewriting.
- HTTP, SQLite, subprocesses, git, docker, file systems, notifier delivery, dashboard, LLM analysis, CVE scanning and metrics.
- Host, docker, file-integrity and process watchers, the SSH window and health hysteresis: repeats of the window and spacing results.
