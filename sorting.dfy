/**
 * Python's `list.sort(key=k, reverse=True)` on a key of type float: a
 * stable sort into descending key order (with `reverse=True` elements of
 * equal key keep their original order). The arbitrage scanner sorts its
 * opportunities by profit with it and the arbitrage coordinator sorts the
 * market list by liquidity.
 */
module Sorting {

  predicate SortedDesc<T>(s: seq<T>, key: T -> real)
  {
    forall i, j {:trigger key(s[i]), key(s[j])} :: 0 <= i < j < |s| ==> key(s[i]) >= key(s[j])
  }

  /** Put `x` after every leading element whose key is at least its own. */
  function InsertDesc<T>(s: seq<T>, x: T, key: T -> real): seq<T>
  {
    if s == [] then [x]
    else if key(s[0]) >= key(x) then [s[0]] + InsertDesc(s[1..], x, key)
    else [x] + s
  }

  /** Insertion sort, one element at a time in input order. */
  function SortDesc<T>(s: seq<T>, key: T -> real): seq<T>
  {
    if s == [] then [] else InsertDesc(SortDesc(s[..|s| - 1], key), s[|s| - 1], key)
  }

  lemma {:induction false} InsertDescPermutes<T>(s: seq<T>, x: T, key: T -> real)
    ensures multiset(InsertDesc(s, x, key)) == multiset(s) + multiset{x}
  {
    if s != [] && key(s[0]) >= key(x) {
      InsertDescPermutes(s[1..], x, key);
      assert s == [s[0]] + s[1..];
    }
  }

  lemma {:induction false} InsertDescSorted<T>(s: seq<T>, x: T, key: T -> real)
    requires SortedDesc(s, key)
    ensures SortedDesc(InsertDesc(s, x, key), key)
  {
    if s != [] && key(s[0]) >= key(x) {
      var rest := InsertDesc(s[1..], x, key);
      InsertDescSorted(s[1..], x, key);
      InsertDescPermutes(s[1..], x, key);
      forall k | 0 <= k < |rest| ensures key(s[0]) >= key(rest[k]) {
        assert rest[k] in multiset(rest);
        assert rest[k] in multiset(s[1..]) + multiset{x};
        if rest[k] != x {
          assert rest[k] in s[1..];
        }
      }
    }
  }

  /** The sort returns the input's elements in descending key order. */
  lemma {:induction false} SortDescSortsAndPermutes<T>(s: seq<T>, key: T -> real)
    ensures SortedDesc(SortDesc(s, key), key)
    ensures multiset(SortDesc(s, key)) == multiset(s)
  {
    if s != [] {
      var init := s[..|s| - 1];
      SortDescSortsAndPermutes(init, key);
      InsertDescSorted(SortDesc(init, key), s[|s| - 1], key);
      InsertDescPermutes(SortDesc(init, key), s[|s| - 1], key);
      assert s == init + [s[|s| - 1]];
    }
  }

  /** `[y for y in s if key(y) == v]`. */
  function OfKey<T>(s: seq<T>, key: T -> real, v: real): seq<T>
  {
    if s == [] then [] else (if key(s[0]) == v then [s[0]] else []) + OfKey(s[1..], key, v)
  }

  lemma {:induction false} OfKeyNone<T>(s: seq<T>, key: T -> real, v: real)
    requires forall i :: 0 <= i < |s| ==> key(s[i]) != v
    ensures OfKey(s, key, v) == []
  {
    if s != [] {
      OfKeyNone(s[1..], key, v);
    }
  }

  lemma {:induction false} OfKeyAppend<T>(s: seq<T>, t: seq<T>, key: T -> real, v: real)
    ensures OfKey(s + t, key, v) == OfKey(s, key, v) + OfKey(t, key, v)
  {
    if s == [] {
      assert s + t == t;
    } else {
      var head := if key(s[0]) == v then [s[0]] else [];
      assert (s + t)[0] == s[0];
      assert (s + t)[1..] == s[1..] + t;
      OfKeyAppend(s[1..], t, key, v);
      assert OfKey(s + t, key, v) == head + OfKey(s[1..] + t, key, v);
      assert OfKey(s, key, v) == head + OfKey(s[1..], key, v);
    }
  }

  /** Inserting `x` into a sorted list puts it after every element of its key. */
  lemma {:induction false} InsertDescStableSame<T>(s: seq<T>, x: T, key: T -> real)
    requires SortedDesc(s, key)
    ensures OfKey(InsertDesc(s, x, key), key, key(x)) == OfKey(s, key, key(x)) + [x]
  {
    if s != [] {
      if key(s[0]) >= key(x) {
        InsertDescStableSame(s[1..], x, key);
        assert ([s[0]] + InsertDesc(s[1..], x, key))[1..] == InsertDesc(s[1..], x, key);
      } else {
        OfKeyNone(s, key, key(x));
        assert ([x] + s)[1..] == s;
      }
    }
  }

  lemma {:induction false} InsertDescStableOther<T>(s: seq<T>, x: T, key: T -> real, v: real)
    requires key(x) != v
    ensures OfKey(InsertDesc(s, x, key), key, v) == OfKey(s, key, v)
  {
    if s != [] {
      if key(s[0]) >= key(x) {
        InsertDescStableOther(s[1..], x, key, v);
        assert ([s[0]] + InsertDesc(s[1..], x, key))[1..] == InsertDesc(s[1..], x, key);
      } else {
        assert ([x] + s)[1..] == s;
      }
    }
  }

  /** Stability: the elements of any one key come out in their input order. */
  lemma {:induction false} SortDescStable<T>(s: seq<T>, key: T -> real, v: real)
    ensures OfKey(SortDesc(s, key), key, v) == OfKey(s, key, v)
  {
    if s != [] {
      var init := s[..|s| - 1];
      var x := s[|s| - 1];
      SortDescStable(init, key, v);
      OfKeyAppend(init, [x], key, v);
      assert init + [x] == s;
      if key(x) == v {
        SortDescSortsAndPermutes(init, key);
        InsertDescStableSame(SortDesc(init, key), x, key);
      } else {
        InsertDescStableOther(SortDesc(init, key), x, key, v);
      }
    }
  }
}
