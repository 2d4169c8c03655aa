/** String operations the dashboard uses: case mapping, `includes`,
    `replace` with a string pattern (first occurrence only) and `replace`
    with the regular expression `/\s+/g`. Case mapping covers ASCII
    letters only. */
module Text {
  import opened Common

  function Lower(c: char): char {
    if 'A' <= c <= 'Z' then (c as int + 32) as char else c
  }

  function Upper(c: char): char {
    if 'a' <= c <= 'z' then (c as int - 32) as char else c
  }

  /** `s.toLowerCase()` */
  function LowerStr(s: string): (r: string)
    ensures |r| == |s|
    ensures forall i :: 0 <= i < |s| ==> r[i] == Lower(s[i])
  {
    seq(|s|, i requires 0 <= i < |s| => Lower(s[i]))
  }

  /** `s.toUpperCase()` */
  function UpperStr(s: string): (r: string)
    ensures |r| == |s|
    ensures forall i :: 0 <= i < |s| ==> r[i] == Upper(s[i])
  {
    seq(|s|, i requires 0 <= i < |s| => Upper(s[i]))
  }

  /** `p` occurs in `s` starting at index `i`. */
  predicate OccursAt(s: string, p: string, i: int) {
    0 <= i && i + |p| <= |s| && s[i..i + |p|] == p
  }

  /** The first index at or after `i` where `p` occurs in `s`. */
  function FindFrom(s: string, p: string, i: nat): (r: Option<nat>)
    requires i <= |s|
    ensures r.Some? ==> i <= r.value && OccursAt(s, p, r.value)
    ensures r.Some? ==> forall j :: i <= j < r.value ==> !OccursAt(s, p, j)
    ensures r.None? ==> forall j :: i <= j ==> !OccursAt(s, p, j)
    decreases |s| - i
  {
    if OccursAt(s, p, i) then Some(i)
    else if i == |s| then None
    else FindFrom(s, p, i + 1)
  }

  /** `s.indexOf(p)`, with `None` for -1. */
  function IndexOf(s: string, p: string): Option<nat> {
    FindFrom(s, p, 0)
  }

  /** `s.includes(p)` */
  predicate Includes(s: string, p: string) {
    IndexOf(s, p).Some?
  }

  /** `includes` holds exactly when the pattern occurs somewhere. */
  lemma IncludesIffOccurs(s: string, p: string)
    ensures Includes(s, p) <==> exists i :: OccursAt(s, p, i)
  {
    if !Includes(s, p) {
      assert forall j :: 0 <= j ==> !OccursAt(s, p, j);
    }
  }

  /** `s.replace(p, "")` for a string pattern: only the first occurrence is
      removed, and a string without `p` is returned unchanged. */
  function RemoveFirst(s: string, p: string): (r: string)
    ensures (forall j :: !OccursAt(s, p, j)) ==> r == s
    ensures |r| <= |s|
    ensures |p| > 0 && (exists j :: OccursAt(s, p, j)) ==> |r| < |s|
  {
    match IndexOf(s, p)
    case None => s
    case Some(i) => s[..i] + s[i + |p|..]
  }

  /** When `p` first occurs at `i`, `RemoveFirst` cuts out exactly that
      occurrence and keeps everything around it. */
  lemma RemoveFirstAt(s: string, p: string, i: nat)
    requires OccursAt(s, p, i)
    requires forall j :: 0 <= j < i ==> !OccursAt(s, p, j)
    ensures RemoveFirst(s, p) == s[..i] + s[i + |p|..]
    ensures s == s[..i] + p + s[i + |p|..]
  {
    var r := IndexOf(s, p);
    assert r.Some?;
    assert r.value == i;
    var k := i + |p|;
    assert s[i..] == s[i..k] + s[k..];
    assert s == s[..i] + s[i..];
  }

  /** The characters JavaScript's `\s` matches. */
  predicate IsSpace(c: char) {
    || c == ' ' || c == '\t' || c == '\n' || c == '\r' || c == '\U{B}' || c == '\U{C}'
    || c == '\U{A0}' || c == '\U{1680}' || ('\U{2000}' <= c <= '\U{200A}')
    || c == '\U{2028}' || c == '\U{2029}' || c == '\U{202F}' || c == '\U{205F}'
    || c == '\U{3000}' || c == '\U{FEFF}'
  }

  predicate NoSpace(s: string) {
    forall i :: 0 <= i < |s| ==> !IsSpace(s[i])
  }

  /** Joining whitespace-free strings gives a whitespace-free string. */
  lemma NoSpaceConcat(a: string, b: string)
    requires NoSpace(a) && NoSpace(b)
    ensures NoSpace(a + b)
  {
    forall i | 0 <= i < |a + b| ensures !IsSpace((a + b)[i]) {
      if i >= |a| { assert (a + b)[i] == b[i - |a|]; }
    }
  }

  lemma NoSpaceJoin(a: string, b: string, c: string)
    requires NoSpace(a) && NoSpace(b) && NoSpace(c)
    ensures NoSpace(a + b + c)
  {
    NoSpaceConcat(a, b);
    NoSpaceConcat(a + b, c);
  }

  /** A string built as `p + m + q` starts with `p` and ends with `q`. */
  lemma Affixes(p: string, m: string, q: string)
    ensures |p + m + q| == |p| + |m| + |q|
    ensures (p + m + q)[..|p|] == p
    ensures (p + m + q)[|p + m + q| - |q|..] == q
  {
    var r := p + m + q;
    assert r[..|p|] == p;
    assert r[|r| - |q|..] == q;
  }

  /** Drops the leading run of whitespace. */
  function SkipSpaces(s: string): (r: string)
    ensures |r| <= |s|
    ensures r == s[|s| - |r|..]
    ensures |r| > 0 ==> !IsSpace(r[0])
    ensures forall i :: 0 <= i < |s| - |r| ==> IsSpace(s[i])
  {
    if |s| > 0 && IsSpace(s[0]) then SkipSpaces(s[1..]) else s
  }

  /** `s.replace(/\s+/g, "_")`: every maximal run of whitespace becomes one
      underscore. */
  function ReplaceSpaceRuns(s: string): (r: string)
    ensures NoSpace(r)
    ensures 0 < |r| <= |s| || r == s == ""
    ensures NoSpace(s) ==> r == s
    decreases |s|
  {
    if |s| == 0 then ""
    else if IsSpace(s[0]) then "_" + ReplaceSpaceRuns(SkipSpaces(s))
    else [s[0]] + ReplaceSpaceRuns(s[1..])
  }

  /** A string made of whitespace only. */
  predicate AllSpace(w: string) {
    forall i :: 0 <= i < |w| ==> IsSpace(w[i])
  }

  /** A string starting with a character other than whitespace keeps that
      character in front. */
  lemma ReplaceSpaceRunsHead(u: string)
    requires |u| > 0 && !IsSpace(u[0])
    ensures ReplaceSpaceRuns(u) == [u[0]] + ReplaceSpaceRuns(u[1..])
  {
  }

  lemma NoSpaceTail(a: string)
    requires |a| > 0 && NoSpace(a)
    ensures NoSpace(a[1..])
  {
    forall i | 0 <= i < |a| - 1 ensures !IsSpace(a[1..][i]) {
      assert a[1..][i] == a[i + 1];
    }
  }

  lemma ConsAppend(c: char, x: string, y: string)
    ensures [c] + (x + y) == ([c] + x) + y
  {
  }

  /** Whitespace-free text passes through unchanged, whatever follows it. */
  lemma {:induction false} ReplaceSpaceRunsKeepsPlain(a: string, t: string)
    requires NoSpace(a)
    ensures ReplaceSpaceRuns(a + t) == a + ReplaceSpaceRuns(t)
    decreases |a|
  {
    if |a| == 0 {
      assert a + t == t;
    } else {
      var u, rest := a + t, a[1..];
      assert u[0] == a[0];
      assert u[1..] == rest + t;
      ReplaceSpaceRunsHead(u);
      NoSpaceTail(a);
      ReplaceSpaceRunsKeepsPlain(rest, t);
      ConsAppend(a[0], rest, ReplaceSpaceRuns(t));
      assert [a[0]] + rest == a;
    }
  }

  /** A whole run of whitespace is skipped up to the next character. */
  lemma {:induction false} SkipRun(w: string, b: string)
    requires AllSpace(w)
    requires |b| == 0 || !IsSpace(b[0])
    ensures SkipSpaces(w + b) == b
    decreases |w|
  {
    if |w| == 0 {
      assert w + b == b;
    } else {
      assert (w + b)[0] == w[0];
      assert (w + b)[1..] == w[1..] + b;
      SkipRun(w[1..], b);
    }
  }

  /** A maximal run of whitespace becomes exactly one underscore. */
  lemma ReplaceSpaceRunsRun(w: string, b: string)
    requires |w| > 0 && AllSpace(w)
    requires |b| == 0 || !IsSpace(b[0])
    ensures ReplaceSpaceRuns(w + b) == "_" + ReplaceSpaceRuns(b)
  {
    assert (w + b)[0] == w[0];
    SkipRun(w, b);
  }

  /** Reading `s` as a word, a maximal whitespace run and the rest: the word
      is kept, the run becomes one underscore and the rest is replaced in
      turn. Together with the plain case this determines the result on
      every string. */
  lemma ReplaceSpaceRunsSplit(a: string, w: string, b: string)
    requires NoSpace(a)
    requires |w| > 0 && AllSpace(w)
    requires |b| == 0 || !IsSpace(b[0])
    ensures ReplaceSpaceRuns(a + w + b) == a + "_" + ReplaceSpaceRuns(b)
  {
    assert a + w + b == a + (w + b);
    ReplaceSpaceRunsKeepsPlain(a, w + b);
    ReplaceSpaceRunsRun(w, b);
  }

  /** Replacing whitespace runs twice changes nothing more. */
  lemma ReplaceSpaceRunsIdempotent(s: string)
    ensures ReplaceSpaceRuns(ReplaceSpaceRuns(s)) == ReplaceSpaceRuns(s)
  {
  }

  /** `s.substring(0, n)` for `n >= 0`. */
  function Prefix(s: string, n: nat): (r: string)
    ensures |r| == if n < |s| then n else |s|
    ensures r == s[..|r|]
  {
    if n < |s| then s[..n] else s
  }
}
