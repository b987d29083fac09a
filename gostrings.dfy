/** The parts of Go's `strings` and `fmt` packages and of its 64-bit `int`
    that the generator relies on, stated over code points. Case mapping is
    modelled for ASCII letters only; every other character is left as is. */
module GoStrings {
  import opened Wrappers
  import opened Text

  const MinInt64: int := -0x8000_0000_0000_0000
  const MaxInt64: int := 0x7FFF_FFFF_FFFF_FFFF

  /** Go's `int` on a 64-bit platform. */
  type Int64 = x: int | MinInt64 <= x <= MaxInt64

  /** Two's-complement wrap-around of a mathematical integer into `int`. */
  function Wrap64(x: int): (r: Int64)
    ensures (r - x) % 0x1_0000_0000_0000_0000 == 0
    ensures MinInt64 <= x <= MaxInt64 ==> r == x
  {
    (x - MinInt64) % 0x1_0000_0000_0000_0000 + MinInt64
  }

  /** `unicode.IsSpace`: the characters `strings.TrimSpace` removes. */
  predicate IsSpace(c: char) {
    c == '\t' || c == '\n' || c == '\U{000B}' || c == '\U{000C}' || c == '\r' || c == ' '
    || c == '\U{0085}' || c == '\U{00A0}' || c == '\U{1680}'
    || ('\U{2000}' <= c <= '\U{200A}') || c == '\U{2028}' || c == '\U{2029}'
    || c == '\U{202F}' || c == '\U{205F}' || c == '\U{3000}'
  }

  /** `strings.TrimSpace`. */
  function TrimSpace(s: string): string {
    Trim(s, IsSpace)
  }

  function LowerChar(c: char): (d: char)
    ensures 'A' <= c <= 'Z' ==> d as int == c as int + 32
    ensures !('A' <= c <= 'Z') ==> d == c
  {
    if 'A' <= c <= 'Z' then (c as int + 32) as char else c
  }

  function UpperChar(c: char): (d: char)
    ensures 'a' <= c <= 'z' ==> d as int == c as int - 32
    ensures !('a' <= c <= 'z') ==> d == c
  {
    if 'a' <= c <= 'z' then (c as int - 32) as char else c
  }

  /** `strings.ToLower`, for ASCII letters. */
  function ToLower(s: string): (r: string)
    ensures |r| == |s| && forall i :: 0 <= i < |s| ==> r[i] == LowerChar(s[i])
  {
    seq(|s|, i requires 0 <= i < |s| => LowerChar(s[i]))
  }

  /** `strings.ToUpper`, for ASCII letters. */
  function ToUpper(s: string): (r: string)
    ensures |r| == |s| && forall i :: 0 <= i < |s| ==> r[i] == UpperChar(s[i])
  {
    seq(|s|, i requires 0 <= i < |s| => UpperChar(s[i]))
  }

  /** Only "y" and "Y" lower-case to "y". */
  lemma ToLowerIsY(s: string)
    ensures ToLower(s) == "y" <==> s == "y" || s == "Y"
  {
    if ToLower(s) == "y" {
      assert LowerChar(s[0]) == 'y';
    }
  }

  /** The separator rule of `strings.Title`: ASCII letters, digits and `_`
      continue a word, any other ASCII character ends it; beyond ASCII
      letters and digits continue a word and white space ends it. */
  predicate IsWordSeparator(c: char) {
    if c as int <= 0x7F then
      !(('0' <= c <= '9') || ('a' <= c <= 'z') || ('A' <= c <= 'Z') || c == '_')
    else
      IsSpace(c)
  }

  /** `strings.Title`: upper-cases every character that follows a
      separator (the string is taken to follow a space). */
  function Title(s: string): (r: string)
    ensures |r| == |s|
    ensures s != [] ==> r[0] == UpperChar(s[0])
    ensures forall i :: 0 < i < |s| ==>
              r[i] == if IsWordSeparator(s[i - 1]) then UpperChar(s[i]) else s[i]
  {
    seq(|s|, i requires 0 <= i < |s| =>
      if IsWordSeparator(if i == 0 then ' ' else s[i - 1]) then UpperChar(s[i]) else s[i])
  }

  /** `strings.Replace(s, target, replacement, 1)`: the first occurrence of
      `target` is replaced; with no occurrence the string is returned as is. */
  function ReplaceFirst(s: string, target: string, replacement: string): (r: string)
    ensures !Contains(s, target) ==> r == s
    ensures Contains(s, target) ==> |r| == |s| - |target| + |replacement|
  {
    match IndexOf(s, target)
    case None => s
    case Some(i) => s[..i] + replacement + s[i + |target|..]
  }

  /** `strings.Replace(s, target, replacement, 1)` replaces the first
      occurrence of `target` and keeps the text around it. */
  lemma ReplaceFirstAt(s: string, target: string, replacement: string, i: nat)
    requires OccursAt(s, target, i)
    requires forall j :: 0 <= j < i ==> !OccursAt(s, target, j)
    ensures ReplaceFirst(s, target, replacement) == s[..i] + replacement + s[i + |target|..]
  {
  }

  /** Replacing the first occurrence of `t` by `ins + t` puts `ins` in
      front of that occurrence and keeps everything else. */
  lemma ReplaceFirstInserts(s: string, t: string, ins: string, i: nat)
    requires OccursAt(s, t, i)
    requires forall j :: 0 <= j < i ==> !OccursAt(s, t, j)
    ensures ReplaceFirst(s, t, ins + t) == s[..i] + ins + s[i..]
    ensures ReplaceFirst(s, t, ins + t)[..i] == s[..i]
    ensures ReplaceFirst(s, t, ins + t)[i + |ins|..] == s[i..]
  {
    ReplaceFirstAt(s, t, ins + t, i);
    assert s[i..] == t + s[i + |t|..] by {
      assert s[i..][..|t|] == s[i..i + |t|];
    }
    Splice(s[..i], ins, t, s[i..], s[i + |t|..]);
  }

  /** Putting `ins` in front of the `t` that begins `c` is putting `ins + t`
      in front of the rest of `c`. */
  lemma Splice(a: string, ins: string, t: string, c: string, rest: string)
    requires c == t + rest
    ensures a + (ins + t) + rest == a + ins + c
    ensures (a + ins + c)[..|a|] == a
    ensures (a + ins + c)[|a| + |ins|..] == c
  {
    assert a + (ins + t) + rest == a + ins + (t + rest);
  }

  /** After inserting `a + b` in front of an occurrence of `t`, the text
      holds whatever `a` holds, and still holds `t`. */
  lemma InsertedContains(s: string, t: string, a: string, b: string, i: nat, k: string)
    requires OccursAt(s, t, i)
    requires Contains(a, k)
    ensures Contains(s[..i] + (a + b) + s[i..], k)
    ensures Contains(s[..i] + (a + b) + s[i..], t)
  {
    var r := s[..i] + (a + b) + s[i..];
    assert r == s[..i] + a + (b + s[i..]);
    ContainsWithin(s[..i], a, b + s[i..], k);
    assert s[i..] == t + s[i + |t|..] by {
      assert s[i..][..|t|] == s[i..i + |t|];
    }
    assert r == s[..i] + (a + b) + t + s[i + |t|..];
    OccursBetween(s[..i] + (a + b), t, s[i + |t|..]);
  }

  function DigitChar(d: nat): (c: char)
    requires d < 10
    ensures '0' <= c <= '9' && c as int - '0' as int == d
  {
    ('0' as int + d) as char
  }

  /** Decimal digits of `n`, most significant first, without leading zeros. */
  function Digits(n: nat): (r: string)
    ensures |r| >= 1 && forall i :: 0 <= i < |r| ==> '0' <= r[i] <= '9'
    ensures r[0] == '0' ==> n == 0
  {
    if n < 10 then [DigitChar(n)] else Digits(n / 10) + [DigitChar(n % 10)]
  }

  /** The number a string of decimal digits denotes. */
  function DigitsValue(s: string): nat
    requires forall i :: 0 <= i < |s| ==> '0' <= s[i] <= '9'
  {
    if s == [] then 0
    else DigitsValue(s[..|s| - 1]) * 10 + (s[|s| - 1] as int - '0' as int)
  }

  /** The digits of `n` denote `n`. */
  lemma {:induction false} DigitsValueOfDigits(n: nat)
    ensures DigitsValue(Digits(n)) == n
  {
    if n >= 10 {
      var d := Digits(n);
      assert d[..|d| - 1] == Digits(n / 10);
      DigitsValueOfDigits(n / 10);
    }
  }

  /** `fmt.Sprintf("%d", i)`: a minus sign for negative numbers, then the
      decimal digits of the magnitude. */
  function FormatInt(i: int): (r: string)
    ensures |r| >= 1 && (i < 0 <==> r[0] == '-')
    ensures i >= 0 ==> r == Digits(i)
    ensures i < 0 ==> r == "-" + Digits(-i)
  {
    if i < 0 then "-" + Digits(-i) else Digits(i)
  }

  /** `%d` is injective: different numbers print differently. */
  lemma FormatIntInjective(i: int, j: int)
    requires FormatInt(i) == FormatInt(j)
    ensures i == j
  {
    var f := FormatInt(i);
    assert (i < 0) == (j < 0);
    var m, n := if i < 0 then -i else i, if j < 0 then -j else j;
    if i < 0 {
      assert f[1..] == Digits(m) && f[1..] == Digits(n);
    }
    assert Digits(m) == Digits(n);
    DigitsValueOfDigits(m);
    DigitsValueOfDigits(n);
  }
}
