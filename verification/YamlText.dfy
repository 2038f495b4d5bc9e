/** The string operations that the YAML reader and writer rest on. */
module YamlText {
  import opened Options
  import opened Blanks
  import opened Decimal

  /** A scalar of a document. A float is kept as its text. */
  datatype Scalar = Null | Bool(b: bool) | Int(i: int) | Float(text: string) | Str(s: string)

  /** Index of the first c, or the length. */
  function IndexOf(s: string, c: char): (i: nat)
    ensures i <= |s| && (forall j :: 0 <= j < i ==> s[j] != c) && (i < |s| ==> s[i] == c)
  {
    if s == "" || s[0] == c then 0 else 1 + IndexOf(s[1..], c)
  }

  /** Index of the first blank, or the length. */
  function FirstBlank(s: string): (i: nat)
    ensures i <= |s| && (forall j :: 0 <= j < i ==> !IsBlank(s[j])) && (i < |s| ==> IsBlank(s[i]))
  {
    if s == "" || IsBlank(s[0]) then 0 else 1 + FirstBlank(s[1..])
  }

  /** `split(c)` without a limit: all fields between separators, trailing empty ones dropped. */
  function Fields(s: string, c: char): (r: seq<string>)
    ensures r != []
  {
    var i := IndexOf(s, c);
    if i == |s| then [s] else [s[..i]] + Fields(s[i + 1..], c)
  }

  function DropTrailingEmpty(fields: seq<string>): seq<string> {
    if fields != [] && fields[|fields| - 1] == "" then DropTrailingEmpty(fields[..|fields| - 1]) else fields
  }

  function Split(s: string, c: char): seq<string> {
    DropTrailingEmpty(Fields(s, c))
  }

  function Lower(c: char): char {
    if 'A' <= c <= 'Z' then c - 'A' + 'a' else c
  }

  function Downcase(s: string): (r: string)
    ensures |r| == |s| && forall i :: 0 <= i < |s| ==> r[i] == Lower(s[i])
  {
    if s == "" then "" else [Lower(s[0])] + Downcase(s[1..])
  }

  // ---------------------------------------------------------------- reading scalars

  predicate IsInteger(text: string) {
    var s := Strip(text);
    s != "" && AllDigits(if s[0] == '-' then s[1..] else s)
  }

  predicate IsFloat(text: string) {
    var s := Strip(text);
    var parts := Split(s, '.');
    s != "" && |parts| == 2 && IsInteger(parts[0]) && IsInteger(parts[1])
  }

  predicate IsBoolean(text: string) {
    Downcase(text) == "true" || Downcase(text) == "false"
  }

  predicate IsNull(text: string) {
    Downcase(text) == "null"
  }

  /** `to_i` on a text that looks like an integer. */
  function ToInt(text: string): int
    requires IsInteger(text)
  {
    var s := Strip(text);
    if s[0] == '-' then -(DigitsValue(s[1..]) as int) else DigitsValue(s)
  }

  function ParseValue(text: string): Scalar {
    if IsInteger(text) then Int(ToInt(text))
    else if IsFloat(text) then Float(text)
    else if IsBoolean(text) then Bool(Downcase(text) == "true")
    else if IsNull(text) then Null
    else Str(text)
  }

  function ScalarText(s: Scalar): string {
    match s
    case Null => "null"
    case Bool(b) => if b then "true" else "false"
    case Int(i) => IntText(i)
    case Float(text) => text
    case Str(t) => t
  }

  // ---------------------------------------------------------------- what texts look like

  /** Digits, perhaps behind a minus sign; a minus sign alone passes. */
  predicate IntegerChars(s: string) {
    s != "" && forall k :: 0 <= k < |s| ==> IsDigit(s[k]) || (k == 0 && s[0] == '-')
  }

  predicate AllBlank(s: string) {
    forall k :: 0 <= k < |s| ==> IsBlank(s[k])
  }

  /** An integer with blanks around it. */
  predicate PaddedInteger(s: string) {
    exists a, b :: 0 <= a < b <= |s| && AllBlank(s[..a]) && IntegerChars(s[a..b]) && AllBlank(s[b..])
  }

  /** Two integers with a dot between them, and any number of dots behind. */
  predicate FloatChars(s: string) {
    exists i, j :: 0 <= i < j <= |s| && FloatSplit(s, i, j)
  }

  predicate FloatSplit(s: string, i: nat, j: nat)
    requires i < j <= |s|
  {
    && s[i] == '.' && PaddedInteger(s[..i]) && PaddedInteger(s[i + 1..j])
    && forall k :: j <= k < |s| ==> s[k] == '.'
  }

  /** The word in small letters, each of which may be a capital. */
  predicate Spells(s: string, word: string) {
    |s| == |word| && forall k :: 0 <= k < |s| ==> s[k] == word[k] || s[k] as int + 32 == word[k] as int
  }

  /** The texts that stand for something else than themselves. */
  predicate Reserved(s: string) {
    IntegerChars(s) || FloatChars(s) || Spells(s, "true") || Spells(s, "false") || Spells(s, "null")
  }

  /** The scalars the writer and reader agree on: floats in plain decimals, and only strings that fit on a
      line, are trimmed, and stand for themselves. */
  predicate ScalarOk(s: Scalar) {
    match s
    case Float(t) => Trimmed(t) && '\n' !in t && FloatChars(t)
    case Str(t) => Trimmed(t) && '\n' !in t && !Reserved(t)
    case _ => true
  }

  // ---------------------------------------------------------------- facts

  lemma {:induction false} IndexIs(s: string, c: char, i: nat)
    requires i < |s| && s[i] == c && forall j :: 0 <= j < i ==> s[j] != c
    ensures IndexOf(s, c) == i
  {}

  lemma {:induction false} BlankIsNoDigit(s: string)
    requires AllDigits(s)
    ensures forall i :: 0 <= i < |s| ==> !IsBlank(s[i]) && s[i] != '\n' && s[i] != '-'
  {}

  lemma {:induction false} IntRoundTrip(i: int)
    ensures var t := IntText(i); Trimmed(t) && '\n' !in t && IsInteger(t) && ToInt(t) == i
  {
    hide LStrip, RStrip, Digits, DigitsValue;
    var t := IntText(i);
    var ds := if i < 0 then t[1..] else t;
    BlankIsNoDigit(ds);
    assert forall k :: 0 <= k < |t| ==> t[k] == if i < 0 then (if k == 0 then '-' else ds[k - 1]) else ds[k];
    StripTrimmed(t);
    DigitsRead(if i < 0 then -i else i);
    assert i < 0 ==> t[1..] == Digits(-i);
  }

  // ---------------------------------------------------------------- what texts are read as

  lemma {:induction false} LStripPart(s: string) returns (a: nat)
    ensures a <= |s| && AllBlank(s[..a]) && LStrip(s) == s[a..] && (a < |s| ==> !IsBlank(s[a]))
  {
    a := 0;
    if s != "" && IsBlank(s[0]) {
      a := LStripPart(s[1..]);
      a := a + 1;
    }
  }

  lemma {:induction false} RStripPart(s: string) returns (b: nat)
    ensures b <= |s| && AllBlank(s[b..]) && RStrip(s) == s[..b] && (0 < b ==> !IsBlank(s[b - 1]))
  {
    b := |s|;
    if s != "" && IsBlank(s[|s| - 1]) {
      b := RStripPart(s[..|s| - 1]);
      assert s[b..] == s[..|s| - 1][b..] + [s[|s| - 1]];
    }
  }

  /** What is stripped is blank. */
  lemma {:induction false} StripParts(s: string) returns (a: nat, b: nat)
    ensures a <= b <= |s| && AllBlank(s[..a]) && AllBlank(s[b..]) && Strip(s) == s[a..b]
  {
    a := LStripPart(s);
    b := RStripPart(s[a..]);
    assert s[a..][b..] == s[a + b..] && s[a..][..b] == s[a..a + b];
    b := a + b;
  }

  lemma {:induction false} PaddedStrips(s: string, a: nat, b: nat)
    requires a < b <= |s| && AllBlank(s[..a]) && Trimmed(s[a..b]) && AllBlank(s[b..])
    ensures Strip(s) == s[a..b]
  {
    hide LStrip, RStrip, AllBlank;
    CutTwice(s, a, b);
    assert forall k :: 0 <= k < |s[..a]| ==> IsBlank(s[..a][k]) by { AllBlankIs(s[..a]); }
    assert forall k :: 0 <= k < |s[b..]| ==> IsBlank(s[b..][k]) by { AllBlankIs(s[b..]); }
    LStripSpaces(s[..a], s[a..]);
    RStripSpaces(s[a..b], s[b..]);
  }

  lemma {:induction false} AllBlankIs(s: string)
    ensures AllBlank(s) <==> forall k :: 0 <= k < |s| ==> IsBlank(s[k])
  {
  }

  lemma {:induction false} CutTwice(s: string, a: nat, b: nat)
    requires a < b <= |s|
    ensures s == s[..a] + s[a..] && s[a..] == s[a..b] + s[b..]
    ensures s[a..] != "" && s[a..][0] == s[a..b][0]
  {
  }

  lemma {:induction false} IntegerPlain(s: string)
    requires IntegerChars(s)
    ensures Trimmed(s) && forall k :: 0 <= k < |s| ==> s[k] != '.' && !IsBlank(s[k])
  {
  }

  lemma {:induction false} StrippedInteger(s: string)
    ensures IsInteger(s) <==> IntegerChars(Strip(s))
  {
    hide Strip;
    var t := Strip(s);
    if t != "" {
      if t[0] == '-' {
        assert forall k :: 0 < k < |t| ==> t[k] == t[1..][k - 1];
        if IntegerChars(t) { assert AllDigits(t[1..]); }
      }
    }
  }

  lemma {:induction false} IntegerIs(s: string)
    ensures IsInteger(s) <==> PaddedInteger(s)
    ensures Trimmed(s) ==> (IsInteger(s) <==> IntegerChars(s))
  {
    hide Strip, IsInteger, IntegerChars;
    StrippedInteger(s);
    if Trimmed(s) { StripTrimmed(s); }
    if IsInteger(s) {
      var a, b := StripParts(s);
      IntegerPlain(Strip(s));
    }
    if PaddedInteger(s) {
      var a, b :| 0 <= a < b <= |s| && AllBlank(s[..a]) && IntegerChars(s[a..b]) && AllBlank(s[b..]);
      IntegerPlain(s[a..b]);
      PaddedStrips(s, a, b);
    }
  }

  lemma {:induction false} PaddedNoDot(s: string)
    requires PaddedInteger(s)
    ensures s != "" && forall k :: 0 <= k < |s| ==> s[k] != '.'
  {
    hide IntegerChars;
    var a, b :| 0 <= a < b <= |s| && AllBlank(s[..a]) && IntegerChars(s[a..b]) && AllBlank(s[b..]);
    IntegerPlain(s[a..b]);
    forall k | 0 <= k < |s| ensures s[k] != '.' {
      assert s[k] == if k < a then s[..a][k] else if k < b then s[a..b][k - a] else s[b..][k - b];
    }
  }

  predicate AllEmpty(fields: seq<string>) {
    forall k :: 0 <= k < |fields| ==> fields[k] == ""
  }

  /** Only empty fields at the end are dropped. */
  lemma {:induction false} DroppedAre(fields: seq<string>) returns (n: nat)
    ensures n <= |fields| && DropTrailingEmpty(fields) == fields[..n] && AllEmpty(fields[n..])
    ensures 0 < n ==> fields[n - 1] != ""
  {
    n := |fields|;
    if fields != [] && fields[|fields| - 1] == "" {
      n := DroppedAre(fields[..|fields| - 1]);
      assert fields[n..] == fields[..|fields| - 1][n..] + [""];
    }
  }

  lemma {:induction false} DropIs(fields: seq<string>, n: nat)
    requires n <= |fields| && AllEmpty(fields[n..]) && (0 < n ==> fields[n - 1] != "")
    ensures DropTrailingEmpty(fields) == fields[..n]
    decreases |fields|
  {
    if n < |fields| {
      assert fields[n..][|fields| - 1 - n] == fields[|fields| - 1];
      assert fields[..|fields| - 1][n..] == fields[n..][..|fields| - 1 - n];
      DropIs(fields[..|fields| - 1], n);
    } else {
      assert fields[..n] == fields;
    }
  }

  predicate AllDots(s: string) {
    forall k :: 0 <= k < |s| ==> s[k] == '.'
  }

  /** The fields of a text are empty exactly if it holds nothing but separators. */
  lemma {:induction false} EmptyFields(s: string)
    ensures AllEmpty(Fields(s, '.')) <==> AllDots(s)
    decreases |s|
  {
    if s != "" {
      var i := IndexOf(s, '.');
      if i == |s| {
        assert Fields(s, '.') == [s] && Fields(s, '.')[0] != "";
        assert s[0] != '.';
      } else {
        EmptyFields(s[i + 1..]);
        var rest := Fields(s[i + 1..], '.');
        assert Fields(s, '.')[0] == s[..i] && Fields(s, '.')[1..] == rest;
        if AllEmpty(Fields(s, '.')) {
          assert s[..i] == "" && AllEmpty(rest);
          assert forall k :: 0 < k < |s| ==> s[k] == s[i + 1..][k - 1];
        }
        if AllDots(s) {
          assert s[0] == '.' && i == 0;
          assert AllDots(s[1..]);
          assert forall k :: 0 < k < |Fields(s, '.')| ==> Fields(s, '.')[k] == rest[k - 1];
        }
      }
    } else {
      assert Fields(s, '.') == [""];
    }
  }

  /** The fields of a text that starts with two parts. */
  lemma {:induction false} TwoFields(s: string, i: nat, j: nat)
    requires i < j <= |s| && s[i] == '.' && (j < |s| ==> s[j] == '.')
    requires forall k :: 0 <= k < j && k != i ==> s[k] != '.'
    ensures Fields(s, '.') == [s[..i], s[i + 1..j]] + (if j == |s| then [] else Fields(s[j + 1..], '.'))
  {
    hide IndexOf, Fields;
    var r := s[i + 1..];
    IndexIs(s, '.', i);
    FirstField(s);
    FirstField(r);
    if j == |s| {
      NoIndex(r);
      assert r == s[i + 1..j];
    } else {
      IndexIs(r, '.', j - i - 1);
      assert r[..j - i - 1] == s[i + 1..j] && r[j - i..] == s[j + 1..];
    }
  }

  lemma {:induction false} NoIndex(s: string)
    requires forall k :: 0 <= k < |s| ==> s[k] != '.'
    ensures IndexOf(s, '.') == |s|
  {
  }

  lemma {:induction false} FloatSplits(s: string, i: nat, j: nat)
    requires i < j <= |s| && FloatSplit(s, i, j)
    ensures Split(s, '.') == [s[..i], s[i + 1..j]]
  {
    hide Fields, PaddedInteger, IndexOf;
    PaddedNoDot(s[..i]);
    PaddedNoDot(s[i + 1..j]);
    assert forall k :: 0 <= k < i ==> s[k] == s[..i][k];
    assert forall k :: i < k < j ==> s[k] == s[i + 1..j][k - i - 1];
    TwoFields(s, i, j);
    var fields := Fields(s, '.');
    if j < |s| {
      assert AllDots(s[j + 1..]);
      EmptyFields(s[j + 1..]);
      assert fields[2..] == Fields(s[j + 1..], '.');
    }
    DropIs(fields, 2);
  }

  lemma {:induction false} FloatIs(s: string)
    requires Trimmed(s)
    ensures IsFloat(s) <==> FloatChars(s)
  {
    hide Fields, PaddedInteger, IsInteger, Strip, Split, FloatSplit;
    StripTrimmed(s);
    if IsFloat(s) {
      var j := SplitIsFloat(s);
      assert FloatSplit(s, IndexOf(s, '.'), j);
    }
    if FloatChars(s) {
      var i, j :| 0 <= i < j <= |s| && FloatSplit(s, i, j);
      FloatSplits(s, i, j);
      IntegerIs(s[..i]);
      IntegerIs(s[i + 1..j]);
      assert PaddedInteger(s[..i]) && PaddedInteger(s[i + 1..j]) by { SplitParts(s, i, j); }
    }
  }

  lemma {:induction false} SplitParts(s: string, i: nat, j: nat)
    requires i < j <= |s| && FloatSplit(s, i, j)
    ensures PaddedInteger(s[..i]) && PaddedInteger(s[i + 1..j])
  {
  }

  lemma {:induction false} SplitIsFloat(s: string) returns (j: nat)
    requires |Split(s, '.')| == 2 && IsInteger(Split(s, '.')[0]) && IsInteger(Split(s, '.')[1])
    ensures IndexOf(s, '.') < j <= |s| && FloatSplit(s, IndexOf(s, '.'), j)
  {
    hide PaddedInteger, IsInteger, Fields, IndexOf, DropTrailingEmpty, AllEmpty, AllDots;
    var fields, i := Fields(s, '.'), IndexOf(s, '.');
    var n := DroppedAre(fields);
    assert n == 2;
    j := SecondField(s);
    IntegerIs(s[..i]);
    IntegerIs(s[i + 1..j]);
    if j < |s| {
      EmptyFields(s[j + 1..]);
      DotsBehind(s, j);
    }
  }

  lemma {:induction false} DotsBehind(s: string, j: nat)
    requires j < |s| && s[j] == '.' && AllDots(s[j + 1..])
    ensures forall k :: j <= k < |s| ==> s[k] == '.'
  {
    assert forall k :: j < k < |s| ==> s[k] == s[j + 1..][k - j - 1];
  }

  /** The first two fields, and where the second one ends. */
  lemma {:induction false} SecondField(s: string) returns (j: nat)
    requires 2 <= |Fields(s, '.')|
    ensures IndexOf(s, '.') < j <= |s| && s[IndexOf(s, '.')] == '.' && (j < |s| ==> s[j] == '.')
    ensures var fields, i := Fields(s, '.'), IndexOf(s, '.');
            && fields[0] == s[..i] && fields[1] == s[i + 1..j]
            && (j < |s| ==> fields[2..] == Fields(s[j + 1..], '.'))
  {
    hide Fields;
    var i := IndexOf(s, '.');
    FirstField(s);
    var r := s[i + 1..];
    FirstField(r);
    var m := IndexOf(r, '.');
    j := i + 1 + m;
    assert r[..m] == s[i + 1..j];
    if m < |r| { assert r[m + 1..] == s[j + 1..]; }
  }

  lemma {:induction false} FirstField(s: string)
    ensures var i := IndexOf(s, '.');
            Fields(s, '.') == if i == |s| then [s] else [s[..i]] + Fields(s[i + 1..], '.')
  {
  }

  lemma {:induction false} KeywordIs(s: string, word: string)
    requires forall k :: 0 <= k < |word| ==> IsLetter(word[k])
    ensures Downcase(s) == word <==> Spells(s, word)
  {
  }

  lemma {:induction false} SpelledPlain(s: string, word: string)
    requires word != "" && (forall k :: 0 <= k < |word| ==> IsLetter(word[k])) && Spells(s, word)
    ensures !IntegerChars(s) && !FloatChars(s)
  {
    hide PaddedInteger;
    assert IsLetter(word[0]);
    assert forall k :: 0 <= k < |s| ==> IsLetter(word[k]) && s[k] != '.';
  }

  /** What a text without blanks at its ends is read as, in terms of its characters alone. */
  lemma {:induction false} ReadAs(t: string)
    requires Trimmed(t)
    ensures ParseValue(t).Int? <==> IntegerChars(t)
    ensures IntegerChars(t) ==>
      AllDigits(if t[0] == '-' then t[1..] else t)
      && ParseValue(t) == Int(if t[0] == '-' then -(DigitsValue(t[1..]) as int) else DigitsValue(t))
    ensures ParseValue(t) == Float(t) <==> FloatChars(t)
    ensures ParseValue(t) == Bool(true) <==> Spells(t, "true")
    ensures ParseValue(t) == Bool(false) <==> Spells(t, "false")
    ensures ParseValue(t) == Null <==> Spells(t, "null")
    ensures ParseValue(t) == Str(t) <==> !Reserved(t)
  {
    hide IsFloat, FloatChars, IntegerChars, Strip, Downcase, Spells;
    IntegerIs(t);
    FloatIs(t);
    StripTrimmed(t);
    KeywordIs(t, "true");
    KeywordIs(t, "false");
    KeywordIs(t, "null");
    if Spells(t, "true") { SpelledPlain(t, "true"); }
    if Spells(t, "false") { SpelledPlain(t, "false"); }
    if Spells(t, "null") { SpelledPlain(t, "null"); }
    if IntegerChars(t) { IntegerNoFloat(t); }
  }

  lemma {:induction false} IntegerNoFloat(s: string)
    requires IntegerChars(s)
    ensures !FloatChars(s)
  {
    IntegerPlain(s);
  }

  /** Scalars survive printing and reading. */
  lemma {:induction false} ScalarRoundTrip(s: Scalar)
    requires ScalarOk(s)
    ensures var t := ScalarText(s); Trimmed(t) && '\n' !in t && ParseValue(t) == s
  {
    hide IsInteger, IsFloat, ToInt, Strip, FloatChars, Reserved;
    match s
    case Null => KeywordRead("null");
    case Bool(b) => KeywordRead(ScalarText(s));
    case Int(i) => IntRoundTrip(i);
    case Float(t) => ReadAs(t);
    case Str(t) => ReadAs(t);
  }

  lemma {:induction false} KeywordRead(word: string)
    requires word in {"null", "true", "false"}
    ensures Trimmed(word) && '\n' !in word
    ensures ParseValue(word) == if word == "null" then Null else Bool(word == "true")
  {
    hide ParseValue;
    ReadAs(word);
  }

  predicate IsLetter(c: char) {
    'a' <= c <= 'z'
  }
}
