/** String helpers behind the submit guard and the blank-output test:
    ECMAScript `String.prototype.trim`, a blank test built on it, and the
    50-character chat summary. Text is a sequence of characters. */
module Text {
  import opened Wrappers

  /** Length of the chat summary taken from the prompt (`prompt.substring(0, 50)`). */
  const SummaryLength: nat := 50

  /** The code points `trim` removes: WhiteSpace (TAB, VT, FF, ZWNBSP and the
      Zs space separators) and LineTerminator (LF, CR, LS, PS), as listed in
      sections 12.2 and 12.3 of ECMAScript 2023. */
  predicate IsTrimmable(c: char)
  {
    var n := c as int;
    || n == 0x09 || n == 0x0A || n == 0x0B || n == 0x0C || n == 0x0D
    || n == 0x20 || n == 0xA0 || n == 0x1680
    || (0x2000 <= n <= 0x200A)
    || n == 0x2028 || n == 0x2029 || n == 0x202F || n == 0x205F
    || n == 0x3000 || n == 0xFEFF
  }

  /** Every character of `s` is one `trim` removes. */
  predicate AllTrimmable(s: string)
  {
    forall i :: 0 <= i < |s| ==> IsTrimmable(s[i])
  }

  /** `s` with its leading trimmable characters removed. */
  function TrimStart(s: string): (r: string)
    ensures |r| <= |s| && r == s[|s| - |r|..]
    ensures AllTrimmable(s[..|s| - |r|])
    ensures r != [] ==> !IsTrimmable(r[0])
  {
    if s != [] && IsTrimmable(s[0]) then
      var r := TrimStart(s[1..]);
      assert s[..|s| - |r|] == [s[0]] + s[1..][..|s[1..]| - |r|];
      r
    else s
  }

  /** `s` with its trailing trimmable characters removed. */
  function TrimEnd(s: string): (r: string)
    ensures |r| <= |s| && r == s[..|r|]
    ensures AllTrimmable(s[|r|..])
    ensures r != [] ==> !IsTrimmable(r[|r| - 1])
  {
    if s != [] && IsTrimmable(s[|s| - 1]) then
      var r := TrimEnd(s[..|s| - 1]);
      assert s[|r|..] == s[..|s| - 1][|r|..] + [s[|s| - 1]];
      r
    else s
  }

  /** `String.prototype.trim`. */
  function Trim(s: string): (r: string)
    ensures r != [] ==> !IsTrimmable(r[0]) && !IsTrimmable(r[|r| - 1])
    ensures exists a, b :: (0 <= a <= b <= |s| && r == s[a..b]
                            && AllTrimmable(s[..a]) && AllTrimmable(s[b..]))
  {
    var t := TrimStart(s);
    var r := TrimEnd(t);
    var a := |s| - |t|;
    assert r == s[a..a + |r|];
    assert s[a + |r|..] == t[|r|..];
    r
  }

  /** A prompt is blank exactly when it consists of trimmable characters only;
      the empty prompt included. */
  lemma TrimEmptyIffAllTrimmable(s: string)
    ensures Trim(s) == [] <==> AllTrimmable(s)
  {
    var t := TrimStart(s);
    if Trim(s) == [] {
      assert t[0..] == t;
      assert s == s[..|s| - |t|] + t;
    }
  }

  /** `isBlank` from the validators utility: absent, or nothing but
      whitespace once trimmed. */
  predicate IsBlank(o: Option<string>)
  {
    o.None? || Trim(o.value) == []
  }

  /** `prompt.substring(0, 50)`: the end index is clamped to the length. */
  function Summary(prompt: string): (r: string)
    ensures |r| == if |prompt| < SummaryLength then |prompt| else SummaryLength
    ensures r <= prompt
  {
    if |prompt| < SummaryLength then prompt else prompt[..SummaryLength]
  }

  /** Summarising a summary changes nothing, and a prompt is its own summary
      exactly when it fits in 50 characters. */
  lemma SummaryIdempotent(prompt: string)
    ensures Summary(Summary(prompt)) == Summary(prompt)
    ensures Summary(prompt) == prompt <==> |prompt| <= SummaryLength
  {
  }
}
