/** Left folds over finite sequences: sums, counts and filters, as the
    source writes them with `forEach`, `reduce` and `filter`. Each is defined
    on the last element, so it follows the left-to-right order of the
    source's loops. */
module Folds {

  /** `s.reduce((a, x) => a + f(x), 0)`. */
  function Sum<T>(s: seq<T>, f: T -> real): real
  {
    if |s| == 0 then 0.0 else Sum(s[..|s| - 1], f) + f(s[|s| - 1])
  }

  /** The number of elements satisfying `p`. */
  function Count<T>(s: seq<T>, p: T -> bool): (n: nat)
    ensures n <= |s|
  {
    if |s| == 0 then 0 else Count(s[..|s| - 1], p) + (if p(s[|s| - 1]) then 1 else 0)
  }

  /** `s.filter(p)`: the elements satisfying `p`, in their original order. */
  function Filter<T>(s: seq<T>, p: T -> bool): (r: seq<T>)
    ensures |r| == Count(s, p)
    ensures forall k :: 0 <= k < |r| ==> p(r[k]) && r[k] in s
    ensures forall k :: 0 <= k < |s| && p(s[k]) ==> s[k] in r
    ensures multiset(r) <= multiset(s)
  {
    if |s| == 0 then []
    else
      var rest := Filter(s[..|s| - 1], p);
      assert s == s[..|s| - 1] + [s[|s| - 1]];
      if p(s[|s| - 1]) then rest + [s[|s| - 1]] else rest
  }

  lemma SumSnoc<T>(s: seq<T>, x: T, f: T -> real)
    ensures Sum(s + [x], f) == Sum(s, f) + f(x)
  {
    assert (s + [x])[..|s|] == s;
  }

  lemma CountSnoc<T>(s: seq<T>, x: T, p: T -> bool)
    ensures Count(s + [x], p) == Count(s, p) + (if p(x) then 1 else 0)
  {
    assert (s + [x])[..|s|] == s;
  }

  /** A non-empty sequence is its front followed by its last element. */
  lemma SnocSplit<T>(s: seq<T>)
    requires |s| > 0
    ensures s == s[..|s| - 1] + [s[|s| - 1]]
  {
    assert s[|s| - 1..] == [s[|s| - 1]];
    assert s == s[..|s| - 1] + s[|s| - 1..];
  }

  /** A sequence is what comes before index `j`, the element at `j`, and
      what comes after it. */
  lemma SplitAt<T>(t: seq<T>, j: nat)
    requires j < |t|
    ensures t == t[..j] + [t[j]] + t[j + 1..]
  {
    assert t[j..] == [t[j]] + t[j + 1..];
    assert t == t[..j] + t[j..];
  }

  /** The count over five elements, one by one. */
  lemma Count5<T>(a: T, b: T, c: T, d: T, e: T, p: T -> bool)
    ensures Count([a, b, c, d, e], p)
         == (if p(a) then 1 else 0) + (if p(b) then 1 else 0) + (if p(c) then 1 else 0)
          + (if p(d) then 1 else 0) + (if p(e) then 1 else 0)
  {
    var s5, s4, s3, s2, s1 := [a, b, c, d, e], [a, b, c, d], [a, b, c], [a, b], [a];
    assert s5[..4] == s4 && s4[..3] == s3 && s3[..2] == s2 && s2[..1] == s1 && s1[..0] == [];
    assert Count(s5, p) == Count(s4, p) + (if p(e) then 1 else 0);
    assert Count(s4, p) == Count(s3, p) + (if p(d) then 1 else 0);
    assert Count(s3, p) == Count(s2, p) + (if p(c) then 1 else 0);
    assert Count(s2, p) == Count(s1, p) + (if p(b) then 1 else 0);
    assert Count(s1, p) == (if p(a) then 1 else 0);
  }

  lemma {:induction false} SumAppend<T>(a: seq<T>, b: seq<T>, f: T -> real)
    ensures Sum(a + b, f) == Sum(a, f) + Sum(b, f)
    decreases |b|
  {
    if |b| == 0 {
      assert a + b == a;
    } else {
      var b' := b[..|b| - 1];
      var x := b[|b| - 1];
      assert b == b' + [x];
      assert a + b == (a + b') + [x];
      SumSnoc(a + b', x, f);
      SumSnoc(b', x, f);
      SumAppend(a, b', f);
    }
  }

  lemma {:induction false} CountAppend<T>(a: seq<T>, b: seq<T>, p: T -> bool)
    ensures Count(a + b, p) == Count(a, p) + Count(b, p)
    decreases |b|
  {
    if |b| == 0 {
      assert a + b == a;
    } else {
      var b' := b[..|b| - 1];
      var x := b[|b| - 1];
      assert b == b' + [x];
      assert a + b == (a + b') + [x];
      CountSnoc(a + b', x, p);
      CountSnoc(b', x, p);
      CountAppend(a, b', p);
    }
  }

  /** Taking the last element of `s` and a matching element of `t` out of
      two permutations leaves two permutations. */
  lemma RemoveMatching<T>(s: seq<T>, t: seq<T>, j: nat)
    requires multiset(s) == multiset(t)
    requires 0 < |s| && j < |t| && t[j] == s[|s| - 1]
    ensures multiset(s[..|s| - 1]) == multiset(t[..j] + t[j + 1..])
  {
    var x := s[|s| - 1];
    SnocSplit(s);
    SplitAt(t, j);
    assert multiset(t) == multiset(t[..j] + t[j + 1..]) + multiset{x};
    assert multiset(s) == multiset(s[..|s| - 1]) + multiset{x};
    assert multiset(s[..|s| - 1]) == multiset(s) - multiset{x} == multiset(t[..j] + t[j + 1..]);
  }

  /** The sum over `t` is the sum without its `j`-th element plus that
      element's summand. */
  lemma SumWithout<T>(t: seq<T>, j: nat, f: T -> real)
    requires j < |t|
    ensures Sum(t, f) == Sum(t[..j] + t[j + 1..], f) + f(t[j])
  {
    var a, x, b := t[..j], t[j], t[j + 1..];
    SplitAt(t, j);
    assert t[..j] + t[j + 1..] == a + b;
    assert Sum(t, f) == Sum(a + [x], f) + Sum(b, f) by {
      SumAppend(a + [x], b, f);
    }
    assert Sum(a + [x], f) == Sum(a, f) + f(x) by {
      SumSnoc(a, x, f);
    }
    assert Sum(a + b, f) == Sum(a, f) + Sum(b, f) by {
      SumAppend(a, b, f);
    }
  }

  /** The count over `t` is the count without its `j`-th element plus that
      element's own. */
  lemma CountWithout<T>(t: seq<T>, j: nat, p: T -> bool)
    requires j < |t|
    ensures Count(t, p) == Count(t[..j] + t[j + 1..], p) + (if p(t[j]) then 1 else 0)
  {
    var a, x, b := t[..j], t[j], t[j + 1..];
    SplitAt(t, j);
    assert t[..j] + t[j + 1..] == a + b;
    assert Count(t, p) == Count(a + [x], p) + Count(b, p) by {
      CountAppend(a + [x], b, p);
    }
    assert Count(a + [x], p) == Count(a, p) + (if p(x) then 1 else 0) by {
      CountSnoc(a, x, p);
    }
    assert Count(a + b, p) == Count(a, p) + Count(b, p) by {
      CountAppend(a, b, p);
    }
  }

  /** A sum does not depend on the order of the summands. */
  lemma {:induction false} SumPermutation<T>(s: seq<T>, t: seq<T>, f: T -> real)
    requires multiset(s) == multiset(t)
    ensures Sum(s, f) == Sum(t, f)
    decreases |s|
  {
    if |s| == 0 {
      assert |t| == |multiset(t)| == 0;
    } else {
      var x := s[|s| - 1];
      assert x in multiset(t);
      var j :| 0 <= j < |t| && t[j] == x;
      RemoveMatching(s, t, j);
      SumPermutation(s[..|s| - 1], t[..j] + t[j + 1..], f);
      SumWithout(t, j, f);
    }
  }

  /** A count does not depend on the order of the elements. */
  lemma {:induction false} CountPermutation<T>(s: seq<T>, t: seq<T>, p: T -> bool)
    requires multiset(s) == multiset(t)
    ensures Count(s, p) == Count(t, p)
    decreases |s|
  {
    if |s| == 0 {
      assert |t| == |multiset(t)| == 0;
    } else {
      var x := s[|s| - 1];
      assert x in multiset(t);
      var j :| 0 <= j < |t| && t[j] == x;
      RemoveMatching(s, t, j);
      CountPermutation(s[..|s| - 1], t[..j] + t[j + 1..], p);
      CountWithout(t, j, p);
    }
  }

  /** Replacing one element changes a sum by the difference of the two
      summands. */
  lemma {:induction false} SumUpdate<T>(s: seq<T>, i: nat, x: T, f: T -> real)
    requires i < |s|
    ensures Sum(s[i := x], f) == Sum(s, f) - f(s[i]) + f(x)
  {
    assert s == s[..i] + [s[i]] + s[i + 1..];
    assert s[i := x] == s[..i] + [x] + s[i + 1..];
    SumAppend(s[..i] + [s[i]], s[i + 1..], f);
    SumAppend(s[..i] + [x], s[i + 1..], f);
    SumSnoc(s[..i], s[i], f);
    SumSnoc(s[..i], x, f);
  }

  /** Elements that never satisfy `p` contribute nothing to its count. */
  lemma {:induction false} CountNone<T>(s: seq<T>, p: T -> bool)
    requires forall k :: 0 <= k < |s| ==> !p(s[k])
    ensures Count(s, p) == 0
    decreases |s|
  {
    if |s| > 0 {
      CountNone(s[..|s| - 1], p);
    }
  }

  /** Elements on which `f` is zero contribute nothing to its sum. */
  lemma {:induction false} SumZero<T>(s: seq<T>, f: T -> real)
    requires forall k :: 0 <= k < |s| ==> f(s[k]) == 0.0
    ensures Sum(s, f) == 0.0
    decreases |s|
  {
    if |s| > 0 {
      SumZero(s[..|s| - 1], f);
    }
  }

  /** Filtering with a predicate every element meets keeps the sequence. */
  lemma {:induction false} KeepAll<T>(s: seq<T>, p: T -> bool)
    requires forall i :: 0 <= i < |s| ==> p(s[i])
    ensures Filter(s, p) == s
  {
    if |s| > 0 {
      var s', x := s[..|s| - 1], s[|s| - 1];
      assert Filter(s', p) == s' by {
        assert forall i :: 0 <= i < |s'| ==> s'[i] == s[i];
        KeepAll(s', p);
      }
      assert p(x);
      SnocSplit(s);
    }
  }

  /** An element survives two filters in a row exactly when it is in the
      sequence and meets both predicates. */
  lemma FilterTwice<T>(s: seq<T>, p: T -> bool, q: T -> bool, x: T)
    ensures x in Filter(Filter(s, p), q) <==> x in s && p(x) && q(x)
  {
    var b := Filter(s, p);
    if x in s && p(x) && q(x) {
      var i :| 0 <= i < |s| && s[i] == x;
      assert x in b;
      var j :| 0 <= j < |b| && b[j] == x;
    }
  }

  /** Every element of a reordering of a twice-filtered sequence meets both
      predicates. */
  lemma FilterTwicePermutation<T>(s: seq<T>, p: T -> bool, q: T -> bool, r: seq<T>)
    requires multiset(r) == multiset(Filter(Filter(s, p), q))
    ensures forall i :: 0 <= i < |r| ==> r[i] in s && p(r[i]) && q(r[i])
  {
    forall i | 0 <= i < |r| ensures r[i] in s && p(r[i]) && q(r[i]) {
      assert r[i] in multiset(r);
      FilterTwice(s, p, q, r[i]);
    }
  }
}
