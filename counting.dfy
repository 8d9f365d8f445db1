/** Counting occurrences in sequences: a rearrangement of a sequence through a
  * bijection on its positions keeps every value's number of occurrences. */
module Counting {
  function IndicesOf<T(==)>(s: seq<T>, v: T): set<int> {
    set i | 0 <= i < |s| && s[i] == v
  }

  /** The multiplicity of a value is the number of positions holding it. */
  lemma {:induction false} MultisetCount<T>(s: seq<T>, v: T)
    ensures multiset(s)[v] == |IndicesOf(s, v)|
    decreases |s|
  {
    if s != [] {
      var init := s[..|s| - 1];
      MultisetCount(init, v);
      assert s == init + [s[|s| - 1]];
      if s[|s| - 1] == v {
        assert IndicesOf(s, v) == IndicesOf(init, v) + {|s| - 1};
      } else {
        assert IndicesOf(s, v) == IndicesOf(init, v);
      }
    }
  }

  /** The positions holding a value, in increasing order. */
  function Positions<T(==)>(s: seq<T>, v: T): (ps: seq<int>)
    ensures forall k | 0 <= k < |ps| :: 0 <= ps[k] < |s| && s[ps[k]] == v
    ensures forall k, l | 0 <= k < l < |ps| :: ps[k] < ps[l]
    ensures (set x | x in ps) == IndicesOf(s, v)
  {
    if s == [] then []
    else
      var init := s[..|s| - 1];
      var last := if s[|s| - 1] == v then [|s| - 1] else [];
      assert forall i | 0 <= i < |init| :: init[i] == s[i];
      assert IndicesOf(s, v) == IndicesOf(init, v) + (set x | x in last);
      Positions(init, v) + last
  }

  /** A sequence without repetitions has as many distinct elements as positions. */
  lemma {:induction false} DistinctCard(s: seq<int>)
    requires forall i, j | 0 <= i < j < |s| :: s[i] != s[j]
    ensures |set x | x in s| == |s|
  {
    if s != [] {
      var init := s[..|s| - 1];
      DistinctCard(init);
      assert (set x | x in s) == (set x | x in init) + {s[|s| - 1]};
      assert s[|s| - 1] !in init;
    }
  }

  /** If b[i] == a[g[i]] for a bijection g with inverse h, then a and b hold the
    * same values with the same multiplicities. */
  lemma GatherPreservesMultiset<T>(a: seq<T>, b: seq<T>, g: seq<int>, h: seq<int>)
    requires |a| == |b| == |g| == |h|
    requires forall i | 0 <= i < |b| :: 0 <= g[i] < |a| && b[i] == a[g[i]] && h[g[i]] == i
    requires forall j | 0 <= j < |a| :: 0 <= h[j] < |b| && g[h[j]] == j
    ensures multiset(a) == multiset(b)
  {
    forall v: T
      ensures multiset(a)[v] == multiset(b)[v]
    {
      MultisetCount(a, v);
      MultisetCount(b, v);
      var ps := Positions(a, v);
      var qs := seq(|ps|, k requires 0 <= k < |ps| => h[ps[k]]);
      DistinctCard(ps);
      assert forall k, l | 0 <= k < l < |qs| :: qs[k] != qs[l] by {
        forall k, l | 0 <= k < l < |qs|
          ensures qs[k] != qs[l]
        {
          assert g[qs[k]] == ps[k] && g[qs[l]] == ps[l];
        }
      }
      DistinctCard(qs);
      assert IndicesOf(b, v) == set x | x in qs by {
        forall i | i in IndicesOf(b, v)
          ensures i in qs
        {
          assert g[i] in IndicesOf(a, v);
          var k :| 0 <= k < |ps| && ps[k] == g[i];
          assert qs[k] == i;
        }
      }
    }
  }
}
