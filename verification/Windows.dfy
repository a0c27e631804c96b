/** The time windows of the detection engine (secwatch/detect.py): deques of time
    stamps that grow at the right and are trimmed, lazily, at the left. */
module Windows {

  type Time = real

  ghost predicate Sorted(s: seq<Time>) {
    forall i, j :: 0 <= i < j < |s| ==> s[i] <= s[j]
  }

  /** How many stamps are at or after `c`. */
  function CountSince(s: seq<Time>, c: Time): nat {
    if s == [] then 0
    else CountSince(s[..|s| - 1], c) + (if s[|s| - 1] >= c then 1 else 0)
  }

  /** What `_trim` leaves of a deque: everything from the first stamp that is not
      before the cutoff. */
  function Trimmed(s: seq<Time>, cutoff: Time): seq<Time> {
    if s != [] && s[0] < cutoff then Trimmed(s[1..], cutoff) else s
  }

  /** CountSince may be unrolled at the left end as well. */
  lemma {:induction false} CountSinceFront(s: seq<Time>, c: Time)
    requires s != []
    ensures CountSince(s, c) == (if s[0] >= c then 1 else 0) + CountSince(s[1..], c)
  {
    if |s| > 1 {
      var front := s[..|s| - 1];
      CountSinceFront(front, c);
      assert front[1..] == s[1..][..|s| - 2];
    }
  }

  lemma CountSinceAppend(s: seq<Time>, t: Time, c: Time)
    ensures CountSince(s + [t], c) == CountSince(s, c) + (if t >= c then 1 else 0)
  {
    assert (s + [t])[..|s|] == s;
  }

  /** Trimming is invisible to every count whose cutoff is not before the trim's. */
  lemma {:induction false} TrimmedKeepsCounts(s: seq<Time>, cutoff: Time, c: Time)
    requires cutoff <= c
    ensures CountSince(Trimmed(s, cutoff), c) == CountSince(s, c)
  {
    if s != [] && s[0] < cutoff {
      CountSinceFront(s, c);
      TrimmedKeepsCounts(s[1..], cutoff, c);
    }
  }

  /** Trimming a sorted deque leaves a sorted deque of stamps of the window only. */
  lemma {:induction false} TrimmedIsWindow(s: seq<Time>, cutoff: Time)
    requires Sorted(s)
    ensures Sorted(Trimmed(s, cutoff))
    ensures forall i :: 0 <= i < |Trimmed(s, cutoff)| ==> Trimmed(s, cutoff)[i] >= cutoff
    ensures Trimmed(s, cutoff) != [] ==> Trimmed(s, cutoff)[|Trimmed(s, cutoff)| - 1] == s[|s| - 1]
  {
    if s != [] && s[0] < cutoff {
      TrimmedIsWindow(s[1..], cutoff);
    }
  }

  /** When no stamp is before the cutoff the count is the length. */
  lemma {:induction false} CountAllSince(s: seq<Time>, c: Time)
    requires forall i :: 0 <= i < |s| ==> s[i] >= c
    ensures CountSince(s, c) == |s|
  {
    if s != [] {
      CountAllSince(s[..|s| - 1], c);
    }
  }

  /** When every stamp is before the cutoff nothing is counted. */
  lemma {:induction false} CountNoneSince(s: seq<Time>, c: Time)
    requires forall i :: 0 <= i < |s| ==> s[i] < c
    ensures CountSince(s, c) == 0
  {
    if s != [] {
      CountNoneSince(s[..|s| - 1], c);
    }
  }

  /** The length of a freshly trimmed window is the number of stamps in the window,
      however often the deque was trimmed before. */
  lemma {:induction false} TrimmedLength(s: seq<Time>, cutoff: Time)
    requires Sorted(s)
    ensures |Trimmed(s, cutoff)| == CountSince(s, cutoff)
  {
    TrimmedIsWindow(s, cutoff);
    CountAllSince(Trimmed(s, cutoff), cutoff);
    TrimmedKeepsCounts(s, cutoff, cutoff);
  }

  /** The popleft loop of `_trim`. */
  method Trim(s: seq<Time>, cutoff: Time) returns (dq: seq<Time>)
    ensures dq == Trimmed(s, cutoff)
  {
    dq := s;
    while dq != [] && dq[0] < cutoff
      invariant Trimmed(dq, cutoff) == Trimmed(s, cutoff)
      decreases |dq|
    {
      dq := dq[1..];
    }
  }

  /** The generator sum of `feed`: stamps at or after a cutoff, one by one. */
  method CountRecent(s: seq<Time>, cutoff: Time) returns (n: nat)
    ensures n == CountSince(s, cutoff)
  {
    n := 0;
    for i := 0 to |s|
      invariant n == CountSince(s[..i], cutoff)
    {
      if s[i] >= cutoff {
        n := n + 1;
      }
      assert s[..i + 1] == s[..i] + [s[i]];
      CountSinceAppend(s[..i], s[i], cutoff);
    }
    assert s[..|s|] == s;
  }
}
