/** The Python `str` methods the status script uses. */
module PyStr {
  import opened Text
  import GoStrings

  /** `str.isspace` for one character: Go's white space plus the four
      information separators U+001C..U+001F, which Python also strips. */
  predicate IsSpace(c: char) {
    GoStrings.IsSpace(c) || ('\U{001C}' <= c <= '\U{001F}')
  }

  /** `str.strip()` with no argument: the white space on either side
      removed. */
  function Strip(s: string): (r: string)
    ensures r == [] <==> AllSatisfy(s, IsSpace)
    ensures r != [] ==> !IsSpace(r[0]) && !IsSpace(r[|r| - 1])
    ensures r != [] ==> r == s[Leading(s, IsSpace)..|s| - Trailing(s, IsSpace)]
  {
    Trim(s, IsSpace)
  }

  /** `str.partition(sep)` for a one-character separator: the text before
      the first `sep`, whether it was found, and the text after it. */
  function Partition(s: string, sep: char): (r: (string, bool, string))
    ensures r.1 <==> sep in s
    ensures sep !in r.0
    ensures r.1 ==> s == r.0 + [sep] + r.2
    ensures !r.1 ==> r.0 == s && r.2 == ""
  {
    if sep in s then
      var i := FirstIndexOfChar(s, sep);
      assert s == s[..i] + [sep] + s[i + 1..];
      (s[..i], true, s[i + 1..])
    else (s, false, "")
  }
}
