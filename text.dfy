/** Language-neutral facts about strings: occurrence of one string inside
    another, prefixes and suffixes, trimming by a character class, and
    joining with a separator. Both the Go and the Python parts of the model
    are built from these. Strings are sequences of Unicode code points; for
    well-formed UTF-8, searching code points and searching bytes agree. */
module Text {
  import opened Wrappers

  /** `t` occurs in `s` starting at index `i`. */
  predicate OccursAt(s: string, t: string, i: int) {
    0 <= i && i + |t| <= |s| && s[i..i + |t|] == t
  }

  /** Index of the first occurrence of `t` in `s` (the empty string occurs at 0). */
  function IndexOf(s: string, t: string): (r: Option<nat>)
    ensures r.Some? ==> OccursAt(s, t, r.value)
    ensures r.Some? ==> forall j :: 0 <= j < r.value ==> !OccursAt(s, t, j)
    ensures r.None? ==> forall j :: !OccursAt(s, t, j)
    decreases |s|
  {
    if |s| < |t| then None
    else if s[..|t|] == t then Some(0)
    else
      OccursShift(s, t);
      match IndexOf(s[1..], t)
      case None => None
      case Some(k) => Some(k + 1)
  }

  /** An occurrence after the first character is an occurrence in the rest. */
  lemma OccursShift(s: string, t: string)
    requires s != []
    ensures forall j :: 0 < j ==> (OccursAt(s, t, j) <==> OccursAt(s[1..], t, j - 1))
  {
    forall j | 0 < j ensures OccursAt(s, t, j) <==> OccursAt(s[1..], t, j - 1) {
      if j + |t| <= |s| {
        assert s[j..j + |t|] == s[1..][j - 1..j - 1 + |t|];
      }
    }
  }

  /** `t` occurs somewhere in `s`. */
  function Contains(s: string, t: string): (c: bool)
    ensures c <==> exists i :: OccursAt(s, t, i)
  {
    IndexOf(s, t).Some?
  }

  /** A string placed between two others occurs in the result at the end of the first. */
  lemma OccursBetween(a: string, t: string, b: string)
    ensures OccursAt(a + t + b, t, |a|)
    ensures Contains(a + t + b, t)
  {
    assert (a + t + b)[|a|..|a| + |t|] == t;
    assert OccursAt(a + t + b, t, |a|);
  }

  /** An occurrence inside `s` is an occurrence inside `s` followed by
      anything. */
  lemma ContainsBefore(s: string, b: string, t: string)
    requires Contains(s, t)
    ensures Contains(s + b, t)
  {
    var k :| OccursAt(s, t, k);
    assert (s + b)[k..k + |t|] == s[k..k + |t|];
    assert OccursAt(s + b, t, k);
  }

  /** An occurrence inside the first of three parts is one inside the whole. */
  lemma ContainsFirst(a: string, b: string, c: string, t: string)
    requires Contains(a, t)
    ensures Contains(a + b + c, t)
  {
    var k :| OccursAt(a, t, k);
    assert (a + b + c)[k..k + |t|] == a[k..k + |t|];
    assert OccursAt(a + b + c, t, k);
  }

  /** A text contains whatever a text it contains contains. */
  lemma ContainsTransitive(s: string, m: string, t: string)
    requires Contains(s, m) && Contains(m, t)
    ensures Contains(s, t)
  {
    var i :| OccursAt(s, m, i);
    var j :| OccursAt(m, t, j);
    forall k | 0 <= k < |t| ensures s[i + j + k] == t[k] {
      assert t[k] == m[j..j + |t|][k] == m[j + k];
      assert m[j + k] == s[i..i + |m|][j + k];
    }
    assert s[i + j..i + j + |t|] == t;
    assert OccursAt(s, t, i + j);
  }

  /** No occurrence of `t` starts inside `line` when `line` differs from `t`
      at some index `d` and has the first character of `t` only at its
      start; so `line + rest` holds `t` only if `rest` does. */
  lemma NotInLine(line: string, rest: string, t: string, d: nat)
    requires d < |t| && d < |line| && line[d] != t[d]
    requires forall k :: 1 <= k < |line| ==> line[k] != t[0]
    requires !Contains(rest, t)
    ensures !Contains(line + rest, t)
  {
    var s := line + rest;
    forall i | |line| <= i ensures !OccursAt(s, t, i) {
      if i + |t| <= |s| {
        assert s[i..i + |t|] == rest[i - |line|..i - |line| + |t|];
        assert !OccursAt(rest, t, i - |line|);
      }
    }
  }

  /** A text contains its own last part. */
  lemma ContainsEnd(a: string, t: string)
    ensures Contains(a + t, t)
  {
    assert (a + t)[|a|..|a| + |t|] == t;
    assert OccursAt(a + t, t, |a|);
  }

  /** An occurrence inside `s` is an occurrence inside any text around `s`. */
  lemma ContainsWithin(a: string, s: string, b: string, t: string)
    requires Contains(s, t)
    ensures Contains(a + s + b, t)
  {
    var k :| OccursAt(s, t, k);
    assert (a + s + b)[|a| + k..|a| + k + |t|] == s[k..k + |t|];
    assert OccursAt(a + s + b, t, |a| + k);
  }

  predicate StartsWith(s: string, p: string) {
    |p| <= |s| && s[..|p|] == p
  }

  predicate EndsWith(s: string, p: string) {
    |p| <= |s| && s[|s| - |p|..] == p
  }

  /** The first part of a concatenation is a prefix of it. */
  lemma StartsWithAppend(a: string, b: string)
    ensures StartsWith(a + b, a)
  {
    assert (a + b)[..|a|] == a;
  }

  /** A prefix of a middle part, put after the part in front of it, is a
      prefix of the whole. */
  lemma StartsWithAfter(a: string, b: string, c: string, p: string)
    requires StartsWith(b, p)
    ensures StartsWith(a + b + c, a + p)
  {
    assert (a + b + c)[..|a + p|] == a + b[..|p|];
  }

  /** Texts whose first characters differ do not start alike. */
  lemma DifferentStart(p: string, x: string, q: string)
    requires |p| > 0 && |q| > 0 && p[0] != q[0]
    ensures !StartsWith(p + x, q)
  {
    assert (p + x)[0] == p[0];
    if |q| <= |p + x| {
      assert (p + x)[..|q|][0] == p[0];
    }
  }

  /** A prefix of a text is a prefix of that text followed by anything. */
  lemma StartsWithExtend(a: string, b: string, p: string)
    requires StartsWith(a, p)
    ensures StartsWith(a + b, p)
  {
    assert (a + b)[..|p|] == a[..|p|];
  }

  /** The first of three parts is a prefix of the whole. */
  lemma StartsWithFirst(a: string, b: string, c: string)
    ensures StartsWith(a + b + c, a)
  {
    assert (a + b + c)[..|a|] == a;
  }

  /** The last of three parts is a suffix of the whole. */
  lemma EndsWithLast(a: string, b: string, c: string)
    ensures EndsWith(a + b + c, c)
  {
    assert (a + b + c)[|a + b + c| - |c|..] == c;
  }

  /** The last two of four parts are a suffix of the whole. */
  lemma EndsWithLastTwo(a: string, b: string, c: string, d: string)
    ensures EndsWith(a + b + c + d, c + d)
  {
    assert a + b + c + d == (a + b) + (c + d);
    assert ((a + b) + (c + d))[|a + b|..] == c + d;
  }

  /** Leaving out the middle part changes a text exactly when that part is
      not empty. */
  lemma MiddleEmpty(a: string, b: string, c: string)
    ensures a + b + c == a + c <==> b == []
  {
    if b == [] {
      assert a + b == a;
    }
  }

  /** A suffix of the last part is a suffix of the whole. */
  lemma EndsWithAppend(a: string, b: string, p: string)
    requires EndsWith(b, p)
    ensures EndsWith(a + b, p)
  {
    assert (a + b)[|a + b| - |p|..] == b[|b| - |p|..];
  }

  /** Every character of `s` is of class `p`. */
  predicate AllSatisfy(s: string, p: char -> bool) {
    forall i :: 0 <= i < |s| ==> p(s[i])
  }

  /** The number of leading characters of class `p`. */
  function Leading(s: string, p: char -> bool): (n: nat)
    ensures n <= |s|
    ensures forall i :: 0 <= i < n ==> p(s[i])
    ensures n < |s| ==> !p(s[n])
    decreases |s|
  {
    if s != [] && p(s[0]) then
      var n := 1 + Leading(s[1..], p);
      assert forall i :: 1 <= i < n ==> s[i] == s[1..][i - 1];
      n
    else 0
  }

  /** The number of trailing characters of class `p`. */
  function Trailing(s: string, p: char -> bool): (n: nat)
    ensures n <= |s|
    ensures forall i :: |s| - n <= i < |s| ==> p(s[i])
    ensures n < |s| ==> !p(s[|s| - 1 - n])
    decreases |s|
  {
    if s != [] && p(s[|s| - 1]) then
      var n := 1 + Trailing(s[..|s| - 1], p);
      assert forall i :: |s| - n <= i < |s| - 1 ==> s[i] == s[..|s| - 1][i];
      n
    else 0
  }

  /** Drops the leading and trailing characters of class `p`: when `s` has
      a character of another class, the result is the part of `s` between
      the run of class `p` at its start and the one at its end; otherwise it
      is empty. The result neither begins nor ends with a character of the
      class. */
  function Trim(s: string, p: char -> bool): (r: string)
    ensures AllSatisfy(s, p) <==> Leading(s, p) == |s|
    ensures AllSatisfy(s, p) ==> r == []
    ensures !AllSatisfy(s, p) ==> Leading(s, p) < |s| - Trailing(s, p)
                                  && r == s[Leading(s, p)..|s| - Trailing(s, p)]
    ensures r == [] <==> AllSatisfy(s, p)
    ensures r != [] ==> !p(r[0]) && !p(r[|r| - 1])
  {
    var lo := Leading(s, p);
    if lo == |s| then []
    else
      var hi := |s| - Trailing(s, p);
      assert !p(s[lo]);
      s[lo..hi]
  }

  /** The pieces of `xs` with `sep` between consecutive ones. */
  function Join(xs: seq<string>, sep: string): (r: string)
  {
    if xs == [] then ""
    else if |xs| == 1 then xs[0]
    else xs[0] + sep + Join(xs[1..], sep)
  }

  /** Cuts `s` at every occurrence of the character `sep`. */
  function Split(s: string, sep: char): (r: seq<string>)
    ensures |r| >= 1
    decreases |s|
  {
    if sep !in s then [s]
    else
      var i := FirstIndexOfChar(s, sep);
      [s[..i]] + Split(s[i + 1..], sep)
  }

  /** Index of the first `c` in `s`. */
  function FirstIndexOfChar(s: string, c: char): (i: nat)
    requires c in s
    ensures i < |s| && s[i] == c && c !in s[..i]
  {
    if s[0] == c then 0 else FirstIndexOfChar(s[1..], c) + 1
  }

  /** Joining with a one-character separator is undone by splitting at it,
      provided no piece contains that character. */
  lemma {:induction false} SplitJoin(xs: seq<string>, sep: char)
    requires xs != []
    requires forall i :: 0 <= i < |xs| ==> sep !in xs[i]
    ensures Split(Join(xs, [sep]), sep) == xs
    decreases |xs|
  {
    if |xs| > 1 {
      var rest := Join(xs[1..], [sep]);
      var s := xs[0] + [sep] + rest;
      assert s[|xs[0]|] == sep;
      assert FirstIndexOfChar(s, sep) == |xs[0]|;
      assert s[..|xs[0]|] == xs[0];
      assert s[|xs[0]| + 1..] == rest;
      SplitJoin(xs[1..], sep);
    }
  }
}
