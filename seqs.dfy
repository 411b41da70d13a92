/**
 * The JavaScript array operations the views use (filter, slice, building a
 * record by assigning keys in order), stated once over Dafny sequences.
 */
module Seqs {

  /** `Array.prototype.filter`: the elements of `s` satisfying `p`, in order. */
  function Filter<T(!new)>(s: seq<T>, p: T -> bool): (r: seq<T>)
    ensures |r| <= |s|
    ensures forall x :: x in r <==> x in s && p(x)
  {
    if s == [] then [] else (if p(s[0]) then [s[0]] else []) + Filter(s[1..], p)
  }

  /** `a` can be obtained from `b` by deleting elements (order is kept). */
  ghost predicate IsSubsequence<T(!new)>(a: seq<T>, b: seq<T>)
    decreases |b|
  {
    a == [] || (b != [] && ((a[0] == b[0] && IsSubsequence(a[1..], b[1..])) || IsSubsequence(a, b[1..])))
  }

  lemma {:induction false} FilterIsSubsequence<T(!new)>(s: seq<T>, p: T -> bool)
    ensures IsSubsequence(Filter(s, p), s)
  {
    if s != [] {
      FilterIsSubsequence(s[1..], p);
      if p(s[0]) {
        assert Filter(s, p) == [s[0]] + Filter(s[1..], p);
        assert Filter(s, p)[1..] == Filter(s[1..], p);
      } else {
        assert Filter(s, p) == Filter(s[1..], p);
      }
    }
  }

  lemma {:induction false} SubsequenceReflexive<T(!new)>(s: seq<T>)
    ensures IsSubsequence(s, s)
    decreases |s|
  {
    if s != [] {
      SubsequenceReflexive(s[1..]);
    }
  }

  /** Two tests that agree on every element of `s` keep the same elements. */
  lemma {:induction false} FilterCongruent<T(!new)>(s: seq<T>, p: T -> bool, q: T -> bool)
    requires forall x :: x in s ==> p(x) == q(x)
    ensures Filter(s, p) == Filter(s, q)
  {
    if s != [] {
      FilterCongruent(s[1..], p, q);
    }
  }

  /** Filtering commutes with concatenation: the relative order of kept elements is preserved. */
  lemma {:induction false} FilterAppend<T(!new)>(a: seq<T>, b: seq<T>, p: T -> bool)
    ensures Filter(a + b, p) == Filter(a, p) + Filter(b, p)
  {
    if a != [] {
      assert (a + b)[0] == a[0] && (a + b)[1..] == a[1..] + b;
      FilterAppend(a[1..], b, p);
      assert Filter(a + b, p) == (if p(a[0]) then [a[0]] else []) + Filter(a[1..] + b, p);
    } else {
      assert a + b == b;
    }
  }

  /** Filtering keeps every occurrence of a kept value and none of a dropped one. */
  lemma {:induction false} FilterMultiplicity<T(!new)>(s: seq<T>, p: T -> bool, x: T)
    ensures multiset(Filter(s, p))[x] == if p(x) then multiset(s)[x] else 0
  {
    if s != [] {
      FilterMultiplicity(s[1..], p, x);
      assert s == [s[0]] + s[1..];
    }
  }

  /** `FilterMultiplicity` for every value at once. */
  lemma FilterCounts<T(!new)>(s: seq<T>, p: T -> bool)
    ensures forall x :: multiset(Filter(s, p))[x] == if p(x) then multiset(s)[x] else 0
  {
    forall x ensures multiset(Filter(s, p))[x] == if p(x) then multiset(s)[x] else 0 {
      FilterMultiplicity(s, p, x);
    }
  }

  /** The kept and the dropped elements together account for the whole sequence. */
  lemma {:induction false} FilterPartition<T(!new)>(s: seq<T>, p: T -> bool, q: T -> bool)
    requires forall x :: q(x) == !p(x)
    ensures |Filter(s, p)| + |Filter(s, q)| == |s|
  {
    if s != [] {
      FilterPartition(s[1..], p, q);
    }
  }

  lemma {:induction false} FilterKeepsAll<T(!new)>(s: seq<T>, p: T -> bool)
    requires forall x :: x in s ==> p(x)
    ensures Filter(s, p) == s
  {
    if s != [] {
      FilterKeepsAll(s[1..], p);
      assert s == [s[0]] + s[1..];
    }
  }

  /** The test `y => y !== x`. */
  function Other<T(==)>(x: T): T -> bool
  {
    y => y != x
  }

  /** Removes every occurrence of `x` (`s.filter(y => y !== x)`). */
  function Remove<T(!new,==)>(s: seq<T>, x: T): (r: seq<T>)
    ensures x !in r
    ensures forall y :: y != x ==> (y in r <==> y in s)
  {
    Filter(s, Other(x))
  }

  /** Removing keeps the other elements in their order. */
  lemma RemoveIsSubsequence<T(!new)>(s: seq<T>, x: T)
    ensures IsSubsequence(Remove(s, x), s)
  {
    FilterIsSubsequence(s, Other(x));
  }

  /** The index JavaScript's `slice` uses for an argument `i` on a sequence of length `n`. */
  function SliceIndex(i: int, n: nat): (r: nat)
    ensures r <= n
    ensures 0 <= i <= n ==> r == i
    ensures i > n ==> r == n
    ensures i < 0 ==> r == if n + i < 0 then 0 else n + i
  {
    if i < 0 then (if n + i < 0 then 0 else n + i) else if i > n then n else i
  }

  /** `Array.prototype.slice(start, end)`, negative arguments counting from the end. */
  function JsSlice<T(!new)>(s: seq<T>, start: int, end: int): seq<T>
  {
    var a, b := SliceIndex(start, |s|), SliceIndex(end, |s|);
    if a < b then s[a..b] else []
  }

  /** `s.slice(0, n)` for `n >= 0` is the longest prefix of `s` with at most `n` elements. */
  lemma TakePrefix<T(!new)>(s: seq<T>, n: nat)
    ensures |JsSlice(s, 0, n)| == if n < |s| then n else |s|
    ensures JsSlice(s, 0, n) == s[..|JsSlice(s, 0, n)|]
  {
  }

  /**
   * The record built by assigning `m[key(x)] := val(x)` for every `x` of `s` in
   * order (a `forEach` or `reduce` into an object): a later element overwrites
   * an earlier one with the same key.
   */
  function ToMap<T(!new), K(==), V>(s: seq<T>, key: T -> K, val: T -> V): (m: map<K, V>)
    ensures m.Keys == set x | x in s :: key(x)
  {
    if s == [] then map[]
    else
      var m0 := ToMap(s[..|s| - 1], key, val);
      assert forall x :: x in s <==> x in s[..|s| - 1] || x == s[|s| - 1];
      m0[key(s[|s| - 1]) := val(s[|s| - 1])]
  }

  /** An element that no later element overwrites is the one the record holds for its key. */
  lemma {:induction false} ToMapLastWins<T(!new), K, V>(s: seq<T>, key: T -> K, val: T -> V, i: nat)
    requires i < |s|
    requires forall j :: i < j < |s| ==> key(s[j]) != key(s[i])
    ensures key(s[i]) in ToMap(s, key, val) && ToMap(s, key, val)[key(s[i])] == val(s[i])
  {
    if i < |s| - 1 {
      var s0 := s[..|s| - 1];
      ToMapLastWins(s0, key, val, i);
      assert s0[i] == s[i];
    }
  }

  /** With distinct keys every element's value is the one recorded for its key. */
  lemma ToMapDistinct<T(!new), K, V>(s: seq<T>, key: T -> K, val: T -> V)
    requires forall i, j :: 0 <= i < j < |s| ==> key(s[i]) != key(s[j])
    ensures forall i :: 0 <= i < |s| ==> ToMap(s, key, val)[key(s[i])] == val(s[i])
  {
    forall i | 0 <= i < |s|
      ensures ToMap(s, key, val)[key(s[i])] == val(s[i])
    {
      ToMapLastWins(s, key, val, i);
    }
  }

  ghost predicate Distinct<T>(s: seq<T>)
  {
    forall i, j :: 0 <= i < j < |s| ==> s[i] != s[j]
  }

  /** A sequence without repetitions has as many distinct elements as positions. */
  lemma {:induction false} DistinctCardinality<T>(s: seq<T>)
    requires Distinct(s)
    ensures |set x | x in s| == |s|
  {
    if s != [] {
      assert Distinct(s[1..]) by {
        forall i, j | 0 <= i < j < |s[1..]| ensures s[1..][i] != s[1..][j] {
          assert s[1..][i] == s[i + 1] && s[1..][j] == s[j + 1];
        }
      }
      DistinctCardinality(s[1..]);
      assert (set x | x in s) == {s[0]} + (set x | x in s[1..]);
      assert s[0] !in s[1..] by {
        forall k | 0 <= k < |s[1..]| ensures s[1..][k] != s[0] {
          assert s[1..][k] == s[k + 1];
        }
      }
    }
  }

  /**
   * For two repetition-free sequences, the first drawn from the second, having
   * equally many elements is the same as containing every element of the second.
   */
  lemma SameLengthCoversAll<T>(a: seq<T>, b: seq<T>)
    requires Distinct(a) && Distinct(b)
    requires forall x :: x in a ==> x in b
    ensures |a| == |b| <==> forall x :: x in b ==> x in a
  {
    var sa, sb := set x | x in a, set x | x in b;
    DistinctCardinality(a);
    DistinctCardinality(b);
    assert sa <= sb;
    assert |sb| == |sa| + |sb - sa| by {
      assert sb == sa + (sb - sa);
      assert sa * (sb - sa) == {};
    }
    if |a| == |b| {
      assert sb - sa == {};
      forall x | x in b ensures x in a {
        assert x in sb;
        assert x !in sb - sa;
      }
    }
    if forall x :: x in b ==> x in a {
      assert sb <= sa;
      assert sa == sb;
    }
  }
}
