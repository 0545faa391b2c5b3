/**
 * Sequences: ordering predicates, the ascending sort that `Array.prototype.sort`
 * with `d3.ascending` performs, and an in-place comparison sort on arrays.
 */
module Seqs {

  /** `s` is non-decreasing. */
  predicate Ascending(s: seq<real>)
  {
    forall i, j :: 0 <= i < j < |s| ==> s[i] <= s[j]
  }

  /** Each element at most its successor makes the whole sequence non-decreasing. */
  lemma {:induction false} AscendingFromAdjacent(s: seq<real>)
    requires forall k :: 0 <= k < |s| - 1 ==> s[k] <= s[k + 1]
    ensures Ascending(s)
  {
    if |s| > 1 {
      var t := s[1..];
      forall k | 0 <= k < |t| - 1 ensures t[k] <= t[k + 1] {
        assert t[k] == s[k + 1] && t[k + 1] == s[k + 2];
      }
      AscendingFromAdjacent(t);
      forall i, j | 0 <= i < j < |s| ensures s[i] <= s[j] {
        if i == 0 {
          assert s[0] <= s[1];
          if j > 1 {
            assert t[0] <= t[j - 1];
          }
        } else {
          assert t[i - 1] <= t[j - 1];
        }
      }
    }
  }

  /** `s` is non-decreasing under `key`. */
  predicate SortedBy<T>(s: seq<T>, key: T -> real)
  {
    forall i, j :: 0 <= i < j < |s| ==> key(s[i]) <= key(s[j])
  }

  /** Inserts `x` into an ascending sequence, before the first element not below it. */
  function Insert(x: real, s: seq<real>): (r: seq<real>)
    requires Ascending(s)
    ensures Ascending(r)
    ensures multiset(r) == multiset(s) + multiset{x}
    ensures |r| == |s| + 1
  {
    if |s| == 0 || x <= s[0] then
      ConsAscending(x, s);
      [x] + s
    else
      assert s == [s[0]] + s[1..];
      var t := Insert(x, s[1..]);
      InsertedAbove(x, s, t);
      ConsAscending(s[0], t);
      [s[0]] + t
  }

  /** An element at most every element of an ascending sequence can go in front of it. */
  lemma ConsAscending(a: real, t: seq<real>)
    requires Ascending(t) && (|t| == 0 || a <= t[0])
    ensures Ascending([a] + t)
  {
    var r := [a] + t;
    forall i, j | 0 <= i < j < |r| ensures r[i] <= r[j] {
      if i == 0 {
        assert r[j] == t[j - 1] && t[0] <= t[j - 1];
      } else {
        assert r[i] == t[i - 1] && r[j] == t[j - 1];
      }
    }
  }

  /** After inserting a larger `x` into the tail, the head is still at most the first element. */
  lemma InsertedAbove(x: real, s: seq<real>, t: seq<real>)
    requires Ascending(s) && |s| > 0 && s[0] < x
    requires multiset(t) == multiset(s[1..]) + multiset{x} && |t| > 0
    ensures s[0] <= t[0]
  {
    assert t[0] in multiset(t);
    if t[0] != x {
      assert t[0] in multiset(s[1..]);
      var k :| 0 <= k < |s[1..]| && s[1..][k] == t[0];
      assert s[k + 1] == t[0];
    }
  }

  /** The ascending rearrangement of `s`: the array `s.sort(d3.ascending)` leaves. */
  function SortSeq(s: seq<real>): (r: seq<real>)
    ensures Ascending(r)
    ensures multiset(r) == multiset(s)
    ensures |r| == |s|
  {
    if |s| == 0 then []
    else
      assert s == [s[0]] + s[1..];
      Insert(s[0], SortSeq(s[1..]))
  }

  /** The first element of an ascending sequence is a least element of its multiset. */
  lemma AscendingHeadIsLeast(s: seq<real>, x: real)
    requires Ascending(s) && x in multiset(s)
    ensures |s| > 0 && s[0] <= x
  {
    var k :| 0 <= k < |s| && s[k] == x;
  }

  /** Two ascending sequences with the same elements are equal: sorting has one outcome. */
  lemma {:induction false} AscendingUnique(a: seq<real>, b: seq<real>)
    requires Ascending(a) && Ascending(b)
    requires multiset(a) == multiset(b)
    ensures a == b
  {
    if |a| == 0 {
      assert |b| == |multiset(b)| == 0;
    } else {
      assert a[0] in multiset(b);
      AscendingHeadIsLeast(b, a[0]);
      assert b[0] in multiset(a);
      AscendingHeadIsLeast(a, b[0]);
      assert a == [a[0]] + a[1..];
      assert b == [b[0]] + b[1..];
      assert a[0] == b[0];
      assert multiset(a[1..]) == multiset(a) - multiset{a[0]};
      assert multiset(b[1..]) == multiset(b) - multiset{b[0]};
      AscendingUnique(a[1..], b[1..]);
    }
  }

  /** Sorting an ascending sequence leaves it as it is; so sorting twice is sorting once. */
  lemma SortSeqOfAscending(s: seq<real>)
    requires Ascending(s)
    ensures SortSeq(s) == s
  {
    AscendingUnique(SortSeq(s), s);
  }

  lemma SortSeqIdempotent(s: seq<real>)
    ensures SortSeq(SortSeq(s)) == SortSeq(s)
  {
    SortSeqOfAscending(SortSeq(s));
  }

  /** Sorting depends only on the elements, not on their order. */
  lemma SortSeqOfPermutation(s: seq<real>, t: seq<real>)
    requires multiset(s) == multiset(t)
    ensures SortSeq(s) == SortSeq(t)
  {
    AscendingUnique(SortSeq(s), SortSeq(t));
  }

  /**
   * An in-place comparison sort by `key`: afterwards the array is a permutation
   * of what it held and non-decreasing under `key`.
   */
  method SortByKey<T(==)>(a: array<T>, key: T -> real)
    modifies a
    ensures SortedBy(a[..], key)
    ensures multiset(a[..]) == multiset(old(a[..]))
  {
    var i := 0;
    while i < a.Length
      invariant 0 <= i <= a.Length
      invariant SortedBy(a[..i], key)
      invariant multiset(a[..]) == multiset(old(a[..]))
    {
      SinkInto(a, i, key);
      i := i + 1;
    }
    assert a[..a.Length] == a[..];
  }

  /** Moves `a[i]` down into the sorted prefix `a[..i]` by adjacent swaps. */
  method SinkInto<T(==)>(a: array<T>, i: int, key: T -> real)
    requires 0 <= i < a.Length
    requires SortedBy(a[..i], key)
    modifies a
    ensures SortedBy(a[..i + 1], key)
    ensures multiset(a[..]) == multiset(old(a[..]))
  {
    var j := i;
    SinkStart(a[..], i, key);
    while j > 0 && key(a[j - 1]) > key(a[j])
      invariant 0 <= j <= i < a.Length
      invariant Sinking(a[..], i, j, key)
      invariant multiset(a[..]) == multiset(old(a[..]))
    {
      SinkStep(a[..], i, j, key);
      SwapAdjacent(a, j);
      j := j - 1;
    }
    SinkDone(a[..], i, j, key);
  }

  /** Exchanges `a[j - 1]` and `a[j]`. */
  method SwapAdjacent<T>(a: array<T>, j: int)
    requires 0 < j < a.Length
    modifies a
    ensures a[..] == old(a[..])[j - 1 := old(a[j])][j := old(a[j - 1])]
    ensures multiset(a[..]) == multiset(old(a[..]))
  {
    a[j - 1], a[j] := a[j], a[j - 1];
  }

  /**
   * Halfway through sinking the element at `j`: the prefix up to `i` is
   * ascending once `j` is left out, and `j`'s neighbours are in order.
   */
  ghost predicate Sinking<T>(s: seq<T>, i: int, j: int, key: T -> real)
    requires 0 <= j <= i < |s|
  {
    && (forall k, l :: 0 <= k < l <= i && l != j ==> key(s[k]) <= key(s[l]))
    && (0 < j < i ==> key(s[j - 1]) <= key(s[j + 1]))
  }

  lemma SinkStart<T>(s: seq<T>, i: int, key: T -> real)
    requires 0 <= i < |s| && SortedBy(s[..i], key)
    ensures Sinking(s, i, i, key)
  {
    forall k, l | 0 <= k < l <= i && l != i
      ensures key(s[k]) <= key(s[l])
    {
      assert s[k] == s[..i][k] && s[l] == s[..i][l];
    }
  }

  lemma SinkStep<T>(s: seq<T>, i: int, j: int, key: T -> real)
    requires 0 < j <= i < |s| && Sinking(s, i, j, key)
    requires key(s[j - 1]) > key(s[j])
    ensures Sinking(s[j - 1 := s[j]][j := s[j - 1]], i, j - 1, key)
  {
  }

  lemma SinkDone<T>(s: seq<T>, i: int, j: int, key: T -> real)
    requires 0 <= j <= i < |s| && Sinking(s, i, j, key)
    requires j == 0 || key(s[j - 1]) <= key(s[j])
    ensures SortedBy(s[..i + 1], key)
  {
    var p := s[..i + 1];
    forall k, l | 0 <= k < l < |p|
      ensures key(p[k]) <= key(p[l])
    {
      if l == j && k < j - 1 {
        assert key(s[k]) <= key(s[j - 1]);
      } else if k == j && j < l {
        if j > 0 { assert key(s[j - 1]) <= key(s[j]); }
      }
    }
  }

  /** `values.sort(d3.ascending)`: sorts the array in place. */
  method SortAscending(a: array<real>)
    modifies a
    ensures a[..] == SortSeq(old(a[..]))
  {
    SortByKey(a, (x: real) => x);
    assert Ascending(a[..]) by {
      assert SortedBy(a[..], (x: real) => x);
    }
    AscendingUnique(a[..], SortSeq(old(a[..])));
  }

  /** `s` in the opposite order. */
  function Reverse<T>(s: seq<T>): (r: seq<T>)
    ensures |r| == |s|
    ensures forall k :: 0 <= k < |s| ==> r[k] == s[|s| - 1 - k]
  {
    if |s| == 0 then [] else Reverse(s[1..]) + [s[0]]
  }

  /** The sum of the elements. */
  function Sum(s: seq<real>): real
  {
    if |s| == 0 then 0.0 else s[0] + Sum(s[1..])
  }

  /** A prefix one longer is the prefix and the next element. */
  lemma TakeOneMore<T>(s: seq<T>, i: nat)
    requires i < |s|
    ensures s[..i + 1] == s[..i] + [s[i]]
  {
  }

  /** The prefix of full length is the whole sequence. */
  lemma TakeAll<T>(s: seq<T>)
    ensures s[..|s|] == s
  {
  }

  /** The sum of the elements lies between `|s|` times the least and `|s|` times the greatest. */
  lemma {:induction false} SumBounds(s: seq<real>, lo: real, hi: real)
    requires forall k :: 0 <= k < |s| ==> lo <= s[k] <= hi
    ensures (|s| as real) * lo <= Sum(s) <= (|s| as real) * hi
  {
    if |s| > 0 {
      SumBounds(s[1..], lo, hi);
    }
  }
}
