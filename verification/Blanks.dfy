/** White space at the ends of strings, as `strip` removes it. */
module Blanks {

  predicate IsBlank(c: char) {
    c == ' ' || '\t' <= c <= '\r' || c == '\0'
  }

  function LStrip(s: string): (r: string)
    ensures |r| <= |s|
  {
    if s != "" && IsBlank(s[0]) then LStrip(s[1..]) else s
  }

  function RStrip(s: string): string {
    if s != "" && IsBlank(s[|s| - 1]) then RStrip(s[..|s| - 1]) else s
  }

  function Strip(s: string): string {
    RStrip(LStrip(s))
  }

  /** Non-empty, with no blank at either end. */
  predicate Trimmed(s: string) {
    s != "" && !IsBlank(s[0]) && !IsBlank(s[|s| - 1])
  }

  lemma {:induction false} LStripSpaces(pad: string, s: string)
    requires forall i :: 0 <= i < |pad| ==> IsBlank(pad[i])
    requires s != "" && !IsBlank(s[0])
    ensures LStrip(pad + s) == s
  {
    if pad == "" {
      assert pad + s == s;
    } else {
      LStripSpaces(pad[1..], s);
      assert (pad + s)[1..] == pad[1..] + s;
    }
  }

  lemma {:induction false} RStripSpaces(s: string, pad: string)
    requires forall i :: 0 <= i < |pad| ==> IsBlank(pad[i])
    requires s != "" && !IsBlank(s[|s| - 1])
    ensures RStrip(s + pad) == s
  {
    if pad == "" {
      assert s + pad == s;
    } else {
      RStripSpaces(s, pad[..|pad| - 1]);
      assert (s + pad)[..|s + pad| - 1] == s + pad[..|pad| - 1];
    }
  }

  lemma {:induction false} StripTrimmed(s: string)
    requires Trimmed(s)
    ensures Strip(s) == s
  {}

  /** The characters that count as white space. */
  lemma {:induction false} BlankChars(c: char)
    ensures Strip([c]) == if c in {' ', '\t', '\n', 11 as char, 12 as char, '\r', '\0'} then "" else [c]
  {
    assert [c][1..] == [];
  }
}
