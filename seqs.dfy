/** Generic sequence helpers: Python list comprehensions with an `if`. */
module Seqs {

  /** `[x for x in s if p(x)]`, keeping the order of `s`. */
  function Filter<T>(s: seq<T>, p: T -> bool): (r: seq<T>)
    ensures |r| <= |s|
    ensures forall i :: 0 <= i < |r| ==> r[i] in s && p(r[i])
    ensures forall i :: 0 <= i < |s| && p(s[i]) ==> s[i] in r
  {
    if s == [] then []
    else Filter(s[..|s| - 1], p) + (if p(s[|s| - 1]) then [s[|s| - 1]] else [])
  }

  /** A prefix one longer is the shorter prefix and the next element. */
  lemma PrefixSnoc<T>(s: seq<T>, i: nat)
    requires i < |s|
    ensures s[..i + 1] == s[..i] + [s[i]]
    ensures (s[..i] + [s[i]])[..i] == s[..i]
  {
  }

  lemma PrefixOfAppend<T>(a: seq<T>, b: seq<T>)
    ensures a <= a + b
  {
    assert (a + b)[..|a|] == a;
  }

  /** A prefix followed by the next slice is the longer prefix. */
  lemma PrefixThenSlice<T>(s: seq<T>, lo: nat, hi: nat)
    requires lo <= hi <= |s|
    ensures s[..lo] + s[lo..hi] == s[..hi]
  {
  }

  /** A sequence is what precedes position `k`, the element there, and what follows. */
  lemma SplitAt<T>(s: seq<T>, k: nat)
    requires k < |s|
    ensures s == s[..k] + [s[k]] + s[k + 1..]
  {
  }

  lemma PrefixTransitive<T>(a: seq<T>, b: seq<T>, c: seq<T>)
    requires a <= b && b <= c
    ensures a <= c
  {
    assert a == b[..|a|] && b == c[..|b|];
    assert c[..|b|][..|a|] == c[..|a|];
  }

  lemma {:induction false} FilterAll<T>(s: seq<T>, p: T -> bool)
    requires forall i :: 0 <= i < |s| ==> p(s[i])
    ensures Filter(s, p) == s
  {
    if s != [] {
      FilterAll(s[..|s| - 1], p);
    }
  }

  lemma {:induction false} FilterAppend<T>(s: seq<T>, t: seq<T>, p: T -> bool)
    ensures Filter(s + t, p) == Filter(s, p) + Filter(t, p)
  {
    if t == [] {
      assert s + t == s;
    } else {
      assert (s + t)[..|s + t| - 1] == s + t[..|t| - 1];
      FilterAppend(s, t[..|t| - 1], p);
    }
  }

  /** `r` is made of the elements of `s` at the strictly increasing positions `idx`. */
  ghost predicate Picks<T>(s: seq<T>, r: seq<T>, idx: seq<int>)
  {
    && |idx| == |r|
    && (forall k :: 0 <= k < |idx| ==> 0 <= idx[k] < |s| && s[idx[k]] == r[k])
    && (forall k, l :: 0 <= k < l < |idx| ==> idx[k] < idx[l])
  }

  lemma PicksExtend<T>(s: seq<T>, r: seq<T>, idx: seq<int>, x: T)
    requires Picks(s, r, idx)
    ensures Picks(s + [x], r, idx)
  {
    forall k | 0 <= k < |idx|
      ensures (s + [x])[idx[k]] == r[k]
    {
      assert (s + [x])[idx[k]] == s[idx[k]];
    }
  }

  lemma PicksSnoc<T>(s: seq<T>, r: seq<T>, idx: seq<int>, x: T)
    requires Picks(s, r, idx)
    ensures Picks(s + [x], r + [x], idx + [|s|])
  {
    PicksExtend(s, r, idx, x);
    var idx2, r2 := idx + [|s|], r + [x];
    forall k | 0 <= k < |idx2|
      ensures 0 <= idx2[k] < |s| + 1 && (s + [x])[idx2[k]] == r2[k]
    {
      if k < |idx| {
        assert idx2[k] == idx[k] && r2[k] == r[k];
      }
    }
  }

  /** The positions a filter keeps: every position whose element passes, in increasing order. */
  lemma {:induction false} FilterPositions<T>(s: seq<T>, p: T -> bool) returns (idx: seq<int>)
    ensures Picks(s, Filter(s, p), idx)
    ensures forall i :: 0 <= i < |s| && p(s[i]) ==> i in idx
  {
    if s == [] {
      idx := [];
    } else {
      var n := |s| - 1;
      var init, x := s[..n], s[n];
      assert s == init + [x];
      var prev := FilterPositions(init, p);
      var r0 := Filter(init, p);
      if p(x) {
        assert Filter(s, p) == r0 + [x];
        PicksSnoc(init, r0, prev, x);
        idx := prev + [n];
      } else {
        assert Filter(s, p) == r0;
        PicksExtend(init, r0, prev, x);
        idx := prev;
      }
      forall i | 0 <= i < |s| && p(s[i])
        ensures i in idx
      {
        if i < n {
          assert init[i] == s[i];
          assert i in prev;
        } else {
          assert idx[|idx| - 1] == n;
        }
      }
    }
  }

  /** A filter keeps the order of its input, and keeps every element that passes. */
  lemma FilterInOrder<T>(s: seq<T>, p: T -> bool)
    ensures exists idx :: Picks(s, Filter(s, p), idx) && forall i :: 0 <= i < |s| && p(s[i]) ==> i in idx
  {
    var idx := FilterPositions(s, p);
  }

  /** Filtering out one refused element between two runs the filter keeps whole. */
  lemma FilterDropsOne<T>(a: seq<T>, x: T, c: seq<T>, p: T -> bool)
    requires !p(x) && Filter(a, p) == a && Filter(c, p) == c
    ensures Filter(a + [x] + c, p) == a + c
  {
    FilterAppend(a + [x], c, p);
    FilterAppend(a, [x], p);
    assert [x][..0] == [];
    assert Filter([x], p) == [];
    assert a + [] == a;
  }

  /** `sum(1 for x in s if p(x))`. */
  function Count<T>(s: seq<T>, p: T -> bool): (n: nat)
    ensures n <= |s|
  {
    if s == [] then 0 else Count(s[..|s| - 1], p) + (if p(s[|s| - 1]) then 1 else 0)
  }

  /** The count is the whole length exactly when every element qualifies. */
  lemma {:induction false} CountFull<T>(s: seq<T>, p: T -> bool)
    ensures Count(s, p) == |s| <==> forall i :: 0 <= i < |s| ==> p(s[i])
  {
    if s != [] {
      var init := s[..|s| - 1];
      CountFull(init, p);
      if forall i :: 0 <= i < |s| ==> p(s[i]) {
        assert forall i :: 0 <= i < |init| ==> p(init[i]) by {
          forall i | 0 <= i < |init| ensures p(init[i]) {
            assert init[i] == s[i];
          }
        }
      } else if Count(s, p) == |s| {
        assert Count(init, p) == |init| && p(s[|s| - 1]);
        forall i | 0 <= i < |s| ensures p(s[i]) {
          if i < |init| {
            assert init[i] == s[i];
          }
        }
      }
    }
  }

  /** The count is zero exactly when no element qualifies. */
  lemma {:induction false} CountZero<T>(s: seq<T>, p: T -> bool)
    ensures Count(s, p) == 0 <==> forall i :: 0 <= i < |s| ==> !p(s[i])
  {
    if s != [] {
      var init := s[..|s| - 1];
      CountZero(init, p);
      if Count(s, p) == 0 {
        forall i | 0 <= i < |s| ensures !p(s[i]) {
          if i < |init| {
            assert init[i] == s[i];
          }
        }
      } else if forall i :: 0 <= i < |s| ==> !p(s[i]) {
        forall i | 0 <= i < |init| ensures !p(init[i]) {
          assert init[i] == s[i];
        }
      }
    }
  }

  /** No element occurs twice. */
  predicate DistinctElements<T(==)>(s: seq<T>)
  {
    forall i, j :: 0 <= i < j < |s| ==> s[i] != s[j]
  }

  /** The position of the first `x` in `s`, or `|s|` when there is none. */
  function IndexOf<T(==)>(s: seq<T>, x: T): (k: nat)
    ensures k <= |s|
    ensures k < |s| ==> s[k] == x
    ensures forall i :: 0 <= i < k ==> s[i] != x
    ensures k == |s| <==> x !in s
  {
    if s == [] then 0 else if s[0] == x then 0 else 1 + IndexOf(s[1..], x)
  }

  /** `s` without its first `x`, the rest in the same order. */
  function Without<T(==)>(s: seq<T>, x: T): (r: seq<T>)
  {
    var k := IndexOf(s, x);
    if k < |s| then s[..k] + s[k + 1..] else s
  }

  /** Removing an element of a repetition-free sequence removes exactly that element and keeps it repetition-free. */
  lemma WithoutDistinct<T>(s: seq<T>, x: T)
    requires DistinctElements(s)
    ensures DistinctElements(Without(s, x))
    ensures forall y :: y in Without(s, x) <==> y in s && y != x
    ensures x in s ==> |Without(s, x)| == |s| - 1
  {
    var k := IndexOf(s, x);
    if k < |s| {
      var r := s[..k] + s[k + 1..];
      assert forall i :: 0 <= i < |r| ==> r[i] == if i < k then s[i] else s[i + 1];
      forall y
        ensures y in r <==> y in s && y != x
      {
        if y in s && y != x {
          var i :| 0 <= i < |s| && s[i] == y;
          assert i != k;
          assert r[if i < k then i else i - 1] == y;
        }
      }
    }
  }

  /** A repetition-free sequence listing exactly the members of a set is as long as the set is large. */
  lemma {:induction false} DistinctCard<T>(s: seq<T>, keys: set<T>)
    requires DistinctElements(s) && forall x :: x in keys <==> x in s
    ensures |s| == |keys|
  {
    if s != [] {
      var last := s[|s| - 1];
      var init := s[..|s| - 1];
      assert last !in init;
      assert forall x :: x in keys - {last} <==> x in init by {
        assert s == init + [last];
      }
      DistinctCard(init, keys - {last});
    }
  }
}
