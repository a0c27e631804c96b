/** The fleet-update campaign of one node (secwatch/cluster.py): what a node records,
    when it updates itself, what it passes on. Timestamps are the integers of the wire. */
module Campaign {
  import opened Collections

  /** The `campaign_ts` and `applied_ts` of a node's update state file. */
  datatype Record = Record(campaign: int, applied: int)

  const UNTOLD := Record(0, 0)

  function Max(a: int, b: int): int { if a > b then a else b }

  /** `_maybe_apply_campaign`: the record afterwards, and whether an update was started.
      `ok` is what `self_update` would answer. */
  function Applied(st: Record, ts: int, allow: bool, ok: bool): (Record, bool) {
    if ts <= st.campaign && ts <= st.applied then (st, false)
    else
      var told := st.(campaign := Max(ts, st.campaign));
      if ts <= st.applied || !allow || !ok then (told, false)
      else (told.(applied := ts), true)
  }

  /** `request_fleet_update` */
  function Requested(st: Record, ts: int): Record {
    Record(ts, Max(ts, st.applied))
  }

  /** The largest positive answer of a poll, or 0. */
  function Best(answers: seq<int>): int {
    if answers == [] then 0 else Max(Best(answers[..|answers| - 1]), answers[|answers| - 1])
  }

  /** `poll_update_campaign` over the answers that arrived. */
  function Polled(st: Record, answers: seq<int>, allow: bool, ok: bool): (Record, bool) {
    if Best(answers) == 0 then (st, false) else Applied(st, Best(answers), allow, ok)
  }

  // ---- one node

  lemma {:induction false} BestIsMax(answers: seq<int>)
    ensures Best(answers) >= 0
    ensures forall i :: 0 <= i < |answers| ==> answers[i] <= Best(answers)
    ensures Best(answers) > 0 ==> Best(answers) in answers
  {
    if answers != [] {
      BestIsMax(answers[..|answers| - 1]);
      assert answers == answers[..|answers| - 1] + [answers[|answers| - 1]];
    }
  }

  /** Neither timestamp ever goes back, an update only runs for a campaign newer than
      everything applied before, and only where remote updates are allowed. */
  lemma AppliedAdvances(st: Record, ts: int, allow: bool, ok: bool)
    ensures var (st', started) := Applied(st, ts, allow, ok);
            && st'.campaign == Max(st.campaign, ts)
            && (started <==> ts > st.applied && allow && ok)
            && st'.applied == (if started then ts else st.applied)
  {
  }

  /** A failed update leaves the campaign eligible: the same campaign starts an update
      the next time it is heard of. */
  lemma FailedUpdateRetries(st: Record, ts: int)
    requires ts > st.applied
    ensures var (st', started) := Applied(st, ts, true, false);
            && !started && st'.applied == st.applied
            && Applied(st', ts, true, true) == (Record(Max(st.campaign, ts), ts), true)
  {
  }

  /** A poll leaves the known campaign at the maximum of its own and all answers. */
  lemma PolledIsMax(st: Record, answers: seq<int>, allow: bool, ok: bool)
    requires st.campaign >= 0
    ensures var c := Polled(st, answers, allow, ok).0.campaign;
            && c >= st.campaign && (forall i :: 0 <= i < |answers| ==> c >= answers[i])
            && (c == st.campaign || c in answers)
  {
    BestIsMax(answers);
  }

  /** A poll starts an update if and only if remote updates are allowed, the update succeeds,
      and some positive answer is newer than everything applied; then the newest answer is
      what was applied, otherwise nothing changes there. */
  lemma PollUpdatesIff(st: Record, answers: seq<int>, allow: bool, ok: bool)
    ensures var (st', started) := Polled(st, answers, allow, ok);
            && (started <==> allow && ok && exists i :: 0 <= i < |answers| && answers[i] > 0 && answers[i] > st.applied)
            && (started ==> st'.applied in answers && forall i :: 0 <= i < |answers| ==> answers[i] <= st'.applied)
            && (!started ==> st'.applied == st.applied)
  {
    BestIsMax(answers);
    var best := Best(answers);
    if best > 0 {
      var k :| 0 <= k < |answers| && answers[k] == best;
    }
  }

  /** A node: the state file, its queryable peers, and what it has sent and done. */
  class Node {
    const allowRemote: bool
    const peers: seq<string>
    var campaign: int
    var applied: int
    var sent: seq<(string, int)>
    var updates: seq<int>

    constructor (peers: seq<string>, allowRemote: bool)
      ensures this.peers == peers && this.allowRemote == allowRemote
      ensures State() == UNTOLD && sent == [] && updates == []
    {
      this.peers, this.allowRemote := peers, allowRemote;
      campaign, applied, sent, updates := 0, 0, [], [];
    }

    ghost function State(): Record
      reads `campaign, `applied
    {
      Record(campaign, applied)
    }

    /** `_maybe_apply_campaign` */
    method MaybeApply(ts: int, ok: bool) returns (started: bool)
      modifies `campaign, `applied, `updates
      ensures (State(), started) == Applied(old(State()), ts, allowRemote, ok)
      ensures updates == old(updates) + (if started then [ts] else [])
    {
      started := false;
      if ts > campaign || ts > applied {
        campaign := Max(ts, campaign);
        if ts > applied && allowRemote && ok {
          updates := updates + [ts];
          applied := ts;
          started := true;
        }
      }
    }

    /** `_push_update_campaign` */
    method Push(ts: int)
      modifies `sent
      ensures sent == old(sent) + seq(|peers|, i requires 0 <= i < |peers| => (peers[i], ts))
    {
      for i := 0 to |peers|
        invariant sent == old(sent) + seq(i, j requires 0 <= j < i => (peers[j], ts))
      {
        sent := sent + [(peers[i], ts)];
      }
    }

    /** `request_fleet_update` */
    method Request(ts: int)
      modifies `campaign, `applied, `sent
      ensures State() == Requested(old(State()), ts)
      ensures sent == old(sent) + seq(|peers|, i requires 0 <= i < |peers| => (peers[i], ts))
    {
      campaign := ts;
      applied := Max(ts, applied);
      Push(ts);
    }

    /** `receive_update_campaign`: pass a new campaign on, then look at it. */
    method Receive(ts: int, ok: bool)
      modifies `campaign, `applied, `sent, `updates
      ensures ts == 0 ==> State() == old(State()) && updates == old(updates) && sent == old(sent)
      ensures ts != 0 ==>
                && State() == Applied(old(State()), ts, allowRemote, ok).0
                && updates == old(updates) + (if Applied(old(State()), ts, allowRemote, ok).1 then [ts] else [])
                && sent == old(sent)
                           + (if ts > old(campaign) then seq(|peers|, i requires 0 <= i < |peers| => (peers[i], ts))
                              else [])
    {
      if ts != 0 {
        if ts > campaign {
          Push(ts);
        }
        var started := MaybeApply(ts, ok);
      }
    }

    /** `poll_update_campaign`; an unreachable peer is None. */
    method Poll(answers: seq<Option<int>>, ok: bool)
      modifies `campaign, `applied, `updates
      ensures State() == Polled(old(State()), Heard(answers), allowRemote, ok).0
      ensures updates == old(updates)
                         + (if Polled(old(State()), Heard(answers), allowRemote, ok).1 then [Best(Heard(answers))]
                            else [])
    {
      var best := 0;
      for i := 0 to |answers|
        invariant best == Best(Heard(answers[..i]))
        invariant State() == old(State()) && updates == old(updates)
      {
        if answers[i].Some? {
          if answers[i].value > best {
            best := answers[i].value;
          }
        }
        assert answers[..i + 1] == answers[..i] + [answers[i]];
        BestHeard(answers[..i], answers[i]);
      }
      assert answers[..|answers|] == answers;
      if best != 0 {
        var started := MaybeApply(best, ok);
      }
    }
  }

  /** The answers that arrived. */
  function Heard(answers: seq<Option<int>>): seq<int> {
    if answers == [] then []
    else
      var last := answers[|answers| - 1];
      Heard(answers[..|answers| - 1]) + (if last.Some? then [last.value] else [])
  }

  lemma {:induction false} HeardAre(answers: seq<Option<int>>)
    ensures forall a :: a in Heard(answers) <==> Some(a) in answers
    decreases |answers|
  {
    if answers != [] {
      HeardAre(answers[..|answers| - 1]);
      assert answers == answers[..|answers| - 1] + [answers[|answers| - 1]];
    }
  }

  lemma BestHeard(answers: seq<Option<int>>, a: Option<int>)
    ensures Best(Heard(answers + [a]))
         == (if a.Some? then Max(Best(Heard(answers)), a.value) else Best(Heard(answers)))
  {
    assert (answers + [a])[..|answers|] == answers;
    if a.Some? {
      var heard := Heard(answers);
      assert (heard + [a.value])[..|heard|] == heard;
    } else {
      assert Heard(answers + [a]) == Heard(answers);
    }
  }
}
