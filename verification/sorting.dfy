/** Comparison-based sorting with a caller-supplied order, as the source
    does with `Array.prototype.sort(comparator)`. The order is an arbitrary
    total preorder, so ties (equal keys, or strings the collator treats as
    equal) are allowed. */
module Sorting {

  /** `leq` is reflexive, transitive and total: what a consistent
      comparator (`cmp(a, b) <= 0`) provides. */
  ghost predicate TotalPreorder<T(!new)>(leq: (T, T) -> bool) {
    && (forall x :: leq(x, x))
    && (forall x, y, z :: leq(x, y) && leq(y, z) ==> leq(x, z))
    && (forall x, y :: leq(x, y) || leq(y, x))
  }

  /** Every element is `leq` every later element. */
  predicate SortedBy<T>(s: seq<T>, leq: (T, T) -> bool) {
    forall i, j :: 0 <= i < j < |s| ==> leq(s[i], s[j])
  }

  /** The order read backwards: what negating a comparator (`-cmp`) gives. */
  function Flip<T>(leq: (T, T) -> bool): (T, T) -> bool {
    (a: T, b: T) => leq(b, a)
  }

  /** Putting in front of a sorted sequence an element `leq` all of it keeps
      it sorted. */
  lemma ConsSorted<T>(y: T, t: seq<T>, leq: (T, T) -> bool)
    requires SortedBy(t, leq)
    requires forall k :: 0 <= k < |t| ==> leq(y, t[k])
    ensures SortedBy([y] + t, leq)
  {
    var r := [y] + t;
    forall i, j | 0 <= i < j < |r| ensures leq(r[i], r[j]) {
      assert r[j] == t[j - 1];
      if i > 0 { assert r[i] == t[i - 1]; }
    }
  }

  /** An element strictly below the head of a sorted sequence is below all
      of it. */
  lemma BelowHead<T(!new)>(x: T, s: seq<T>, leq: (T, T) -> bool)
    requires TotalPreorder(leq)
    requires SortedBy(s, leq)
    requires |s| > 0 && !leq(s[0], x)
    ensures forall k :: 0 <= k < |s| ==> leq(x, s[k])
  {
    forall k | 0 <= k < |s| ensures leq(x, s[k]) {
      if k > 0 { assert leq(s[0], s[k]); }
    }
  }

  /** The head of a sorted sequence is below everything in the rest with
      an element above it inserted. */
  lemma HeadBelowRest<T(!new)>(x: T, s: seq<T>, rest: seq<T>, leq: (T, T) -> bool)
    requires SortedBy(s, leq)
    requires |s| > 0 && leq(s[0], x)
    requires multiset(rest) == multiset(s[1..]) + multiset{x}
    ensures forall k :: 0 <= k < |rest| ==> leq(s[0], rest[k])
  {
    forall k | 0 <= k < |rest| ensures leq(s[0], rest[k]) {
      assert rest[k] in multiset(rest);
      if rest[k] != x {
        assert rest[k] in multiset(s[1..]);
        var m :| 0 <= m < |s[1..]| && s[1..][m] == rest[k];
        assert s[m + 1] == rest[k];
      }
    }
  }

  /** Inserts `x` into a sorted sequence after every element not above it. */
  function Insert<T(!new)>(x: T, s: seq<T>, leq: (T, T) -> bool): (r: seq<T>)
    requires TotalPreorder(leq)
    requires SortedBy(s, leq)
    ensures multiset(r) == multiset(s) + multiset{x}
    ensures SortedBy(r, leq)
  {
    if |s| == 0 then [x]
    else if !leq(s[0], x) then
      BelowHead(x, s, leq);
      ConsSorted(x, s, leq);
      [x] + s
    else
      var rest := Insert(x, s[1..], leq);
      assert s == [s[0]] + s[1..];
      HeadBelowRest(x, s, rest, leq);
      ConsSorted(s[0], rest, leq);
      [s[0]] + rest
  }

  /** A sorted permutation of `s` (insertion sort, which keeps equal
      elements in their input order). */
  function SortBy<T(!new)>(s: seq<T>, leq: (T, T) -> bool): (r: seq<T>)
    requires TotalPreorder(leq)
    ensures multiset(r) == multiset(s)
    ensures SortedBy(r, leq)
    ensures |r| == |s|
  {
    if |s| == 0 then []
    else
      assert s == s[..|s| - 1] + [s[|s| - 1]];
      var r := Insert(s[|s| - 1], SortBy(s[..|s| - 1], leq), leq);
      assert |r| == |multiset(r)| == |multiset(s)| == |s|;
      r
  }

  /** Reading a total preorder backwards gives a total preorder. */
  lemma FlipTotalPreorder<T(!new)>(leq: (T, T) -> bool)
    requires TotalPreorder(leq)
    ensures TotalPreorder(Flip(leq))
  {
    var f := Flip(leq);
    assert forall x, y :: f(x, y) == leq(y, x);
  }

  /** No two elements share a key. */
  predicate DistinctBy<T, K(==)>(s: seq<T>, key: T -> K) {
    forall i, j :: 0 <= i < j < |s| ==> key(s[i]) != key(s[j])
  }

  /** A value stored at two positions occurs at least twice. */
  lemma TwoPositionsTwoCopies<T>(s: seq<T>, i: nat, j: nat)
    requires i < j < |s| && s[i] == s[j]
    ensures multiset(s)[s[i]] >= 2
  {
    assert s == s[..j] + [s[j]] + s[j + 1..];
    assert s[..j][i] == s[i];
    assert s[i] in multiset(s[..j]);
  }

  /** A value that occurs at least twice sits at two positions. */
  lemma TwoCopiesTwoPositions<T>(s: seq<T>, x: T)
    requires multiset(s)[x] >= 2
    ensures exists a, b :: 0 <= a < b < |s| && s[a] == x && s[b] == x
  {
    assert x in multiset(s);
    var a :| 0 <= a < |s| && s[a] == x;
    assert s == s[..a] + [x] + s[a + 1..];
    assert multiset(s) == multiset(s[..a]) + multiset{x} + multiset(s[a + 1..]);
    assert x in multiset(s[..a]) || x in multiset(s[a + 1..]);
    if x in multiset(s[..a]) {
      var b :| 0 <= b < a && s[..a][b] == x;
      assert s[b] == x;
    } else {
      var b :| 0 <= b < |s[a + 1..]| && s[a + 1..][b] == x;
      assert s[a + 1 + b] == x;
    }
  }

  /** Reordering keeps keys distinct. */
  lemma DistinctByPermutation<T, K>(s: seq<T>, t: seq<T>, key: T -> K)
    requires multiset(s) == multiset(t)
    requires DistinctBy(s, key)
    ensures DistinctBy(t, key)
  {
    assert forall k :: 0 <= k < |t| ==> t[k] in multiset(s);
    forall i, j | 0 <= i < j < |t| ensures key(t[i]) != key(t[j]) {
      if key(t[i]) == key(t[j]) && t[i] == t[j] {
        TwoPositionsTwoCopies(t, i, j);
        TwoCopiesTwoPositions(s, t[i]);
      }
    }
  }

  ghost function KeySet<T, K>(s: seq<T>, key: T -> K): set<K> {
    set x | x in s :: key(x)
  }

  /** Distinct keys: as many keys as elements. */
  lemma {:induction false} DistinctKeysCardinality<T, K>(s: seq<T>, key: T -> K)
    requires DistinctBy(s, key)
    ensures |KeySet(s, key)| == |s|
    decreases |s|
  {
    if |s| > 0 {
      var s' := s[..|s| - 1];
      var x := s[|s| - 1];
      assert s == s' + [x];
      assert DistinctBy(s', key);
      DistinctKeysCardinality(s', key);
      assert KeySet(s, key) == KeySet(s', key) + {key(x)};
      assert forall j :: 0 <= j < |s'| ==> key(s'[j]) != key(x) by {
        assert forall j :: 0 <= j < |s'| ==> s'[j] == s[j];
      }
    }
  }

  /** The comparator `cmp1(a, b) || cmp2(a, b)`, where both compare keys with
      the same collator: order by the first key, and by the second among
      elements whose first keys the collator treats as equal. */
  function ThenBy<T, K>(leq: (K, K) -> bool, first: T -> K, second: T -> K): (T, T) -> bool {
    (a: T, b: T) =>
      || (leq(first(a), first(b)) && !leq(first(b), first(a)))
      || (leq(first(a), first(b)) && leq(first(b), first(a)) && leq(second(a), second(b)))
  }

  /** Ordering by two collated keys is again a total preorder. */
  lemma ThenByTotalPreorder<T(!new), K(!new)>(leq: (K, K) -> bool, first: T -> K, second: T -> K)
    requires TotalPreorder(leq)
    ensures TotalPreorder(ThenBy(leq, first, second))
  {
    var o := ThenBy(leq, first, second);
    forall x, y, z | o(x, y) && o(y, z) ensures o(x, z) {
      assert leq(first(x), first(y)) && leq(first(y), first(z));
      assert leq(first(x), first(z));
    }
    forall x, y ensures o(x, y) || o(y, x) {
      assert leq(first(x), first(y)) || leq(first(y), first(x));
      assert leq(second(x), second(y)) || leq(second(y), second(x));
    }
  }
}
