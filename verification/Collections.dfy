/** Shared datatypes and small facts about maps that several components use. */
module Collections {

  datatype Option<+T> = None | Some(value: T)

  /** `d.get(k, default)` of a Python dict, and the read of a `defaultdict`. */
  function Get<K, V>(m: map<K, V>, k: K, default: V): V {
    if k in m then m[k] else default
  }

  /** The sum of the values of a finite table. */
  ghost function Sum<K(!new)>(m: map<K, int>): int
    decreases m.Keys
  {
    if m.Keys == {} then 0
    else var k :| k in m.Keys; m[k] + Sum(m - {k})
  }

  /** Any entry may be taken out of a sum first. */
  lemma {:induction false} SumWithout<K(!new)>(m: map<K, int>, k: K)
    requires k in m
    ensures Sum(m) == m[k] + Sum(m - {k})
    decreases m.Keys
  {
    var first :| first in m.Keys && Sum(m) == m[first] + Sum(m - {first});
    if first != k {
      SumWithout(m - {first}, k);
      SumWithout(m - {k}, first);
      assert m - {first} - {k} == m - {k} - {first};
    }
  }

  /** Adding to one entry (absent entries count as 0) adds to the sum. */
  lemma {:induction false} SumBump<K(!new)>(m: map<K, int>, k: K, n: int)
    ensures Sum(m[k := Get(m, k, 0) + n]) == Sum(m) + n
  {
    var m' := m[k := Get(m, k, 0) + n];
    SumWithout(m', k);
    assert m' - {k} == m - {k};
    if k in m {
      SumWithout(m, k);
    } else {
      assert m - {k} == m;
    }
  }

  /** Two tables added entry by entry; an absent entry counts as 0. */
  function Added<K>(a: map<K, int>, b: map<K, int>): map<K, int> {
    map k | k in a.Keys + b.Keys :: Get(a, k, 0) + Get(b, k, 0)
  }

  lemma AddedBump<K>(a: map<K, int>, b: map<K, int>, k: K)
    requires k in b
    ensures var rest := Added(a, b - {k}); Added(a, b) == rest[k := Get(rest, k, 0) + b[k]]
  {
  }

  lemma {:induction false} SumAdded<K(!new)>(a: map<K, int>, b: map<K, int>)
    ensures Sum(Added(a, b)) == Sum(a) + Sum(b)
    decreases b.Keys
  {
    if b.Keys == {} {
      assert Added(a, b) == a;
    } else {
      var k :| k in b.Keys;
      SumAdded(a, b - {k});
      SumWithout(b, k);
      AddedBump(a, b, k);
      SumBump(Added(a, b - {k}), k, b[k]);
    }
  }

  lemma SumReplaced<K(!new)>(m: map<K, int>, k: K, v: int)
    requires k in m
    ensures Sum(m[k := v]) == Sum(m) - m[k] + v
  {
    SumBump(m, k, v - m[k]);
  }

  lemma {:induction false} SumNonNegative<K(!new)>(m: map<K, int>)
    requires forall k :: k in m ==> m[k] >= 0
    ensures Sum(m) >= 0
    decreases m.Keys
  {
    if m.Keys != {} {
      var k :| k in m.Keys;
      SumWithout(m, k);
      SumNonNegative(m - {k});
    }
  }

  /** `s[:n]` of a Python string. */
  function Clip(s: string, n: nat): string { if |s| <= n then s else s[..n] }

  lemma SubsetCard<T>(a: set<T>, b: set<T>)
    requires a <= b
    ensures |a| <= |b|
  {
    assert b == a + (b - a);
  }

  /** How many entries of a sequence are of a kind. */
  function CountWhere<T>(s: seq<T>, p: T -> bool): nat { |set i | 0 <= i < |s| && p(s[i])| }

  lemma CountWhereSnoc<T>(s: seq<T>, x: T, p: T -> bool)
    ensures CountWhere(s + [x], p) == CountWhere(s, p) + (if p(x) then 1 else 0)
  {
    var s' := s + [x];
    var before, last: set<int> := set i | 0 <= i < |s| && p(s[i]), if p(x) then {|s|} else {};
    assert forall i :: 0 <= i < |s| ==> s'[i] == s[i];
    assert (set i | 0 <= i < |s'| && p(s'[i])) == before + last;
    assert |s| !in before;
  }
}
