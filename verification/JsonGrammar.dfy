/** Every text of the JSON grammar (RFC 8259, sections 2 to 7) is read as what it says: with any white
    space around its tokens, with escapes, with numbers in all their forms and with repeated keys. */
module JsonGrammar {
  import opened Options
  import opened Hashes
  import opened Decimal
  import opened JsonText
  import opened JsonParser
  import opened JsonRoundTrip

  // ---------------------------------------------------------------- texts

  /** A character of a string, or a backslash and a letter. */
  datatype Piece = Plainly(c: char) | Escape(letter: char)

  datatype Exponent = Exponent(letter: char, sign: string, digits: string)

  datatype Doc =
    | Nothing
    | Truth(b: bool)
    | Number(negative: bool, whole: string, fraction: Option<string>, exponent: Option<Exponent>)
    | Text(pieces: seq<Piece>)
    | List(blank: string, items: seq<Item>)
    | Map(blank: string, entries: seq<Entry>)

  /** A value with the white space around it. */
  datatype Item = Item(before: string, doc: Doc, after: string)

  datatype Entry = Entry(before: string, key: seq<Piece>, gap: string, value: Item)

  function WritePieces(pieces: seq<Piece>): string {
    if pieces == [] then ""
    else (if pieces[0].Plainly? then [pieces[0].c] else ['\\', pieces[0].letter]) + WritePieces(pieces[1..])
  }

  function WriteString(pieces: seq<Piece>): string {
    "\"" + (WritePieces(pieces) + "\"")
  }

  function WriteFraction(fraction: Option<string>): string {
    if fraction.Some? then "." + fraction.value else ""
  }

  function WriteExponent(e: Option<Exponent>): string {
    if e.Some? then [e.value.letter] + (e.value.sign + e.value.digits) else ""
  }

  function WriteNumber(d: Doc): string
    requires d.Number?
  {
    (if d.negative then "-" else "") + (d.whole + (WriteFraction(d.fraction) + WriteExponent(d.exponent)))
  }

  function Write(d: Doc): string
    decreases d, 2
  {
    match d
    case Nothing => "null"
    case Truth(b) => if b then "true" else "false"
    case Number(_, _, _, _) => WriteNumber(d)
    case Text(pieces) => WriteString(pieces)
    case List(blank, items) =>
      if items == [] then "[" + (blank + "]") else "[" + (WriteItem(items[0]) + WriteItems(items[1..]))
    case Map(blank, entries) =>
      if entries == [] then "{" + (blank + "}") else "{" + (WriteEntry(entries[0]) + WriteEntries(entries[1..]))
  }

  function WriteItem(i: Item): string
    decreases i, 1
  {
    i.before + (Write(i.doc) + i.after)
  }

  function WriteItems(items: seq<Item>): string
    decreases items, 0
  {
    if items == [] then "]" else "," + (WriteItem(items[0]) + WriteItems(items[1..]))
  }

  function WriteEntry(e: Entry): string
    decreases e, 1
  {
    e.before + (WriteString(e.key) + (e.gap + (":" + WriteItem(e.value))))
  }

  function WriteEntries(entries: seq<Entry>): string
    decreases entries, 0
  {
    if entries == [] then "}" else "," + (WriteEntry(entries[0]) + WriteEntries(entries[1..]))
  }

  // ---------------------------------------------------------------- which texts, and what they say

  /** The characters that may stand between tokens. */
  predicate AllSpaces(w: string) {
    forall k :: 0 <= k < |w| ==> w[k] == ' ' || w[k] == '\t' || w[k] == '\n' || w[k] == '\r'
  }

  /** The code of the character that an escape stands for. */
  const ESCAPES: map<char, int> :=
    map['"' := 0x22, '\\' := 0x5C, '/' := 0x2F, 'b' := 0x08, 'f' := 0x0C, 'n' := 0x0A, 'r' := 0x0D, 't' := 0x09]

  predicate PiecesOk(pieces: seq<Piece>) {
    forall k :: 0 <= k < |pieces| ==>
      match pieces[k]
      case Plainly(c) => c != '"' && c != '\\'
      case Escape(letter) => letter in ESCAPES
  }

  function Said(pieces: seq<Piece>): string
    requires PiecesOk(pieces)
  {
    if pieces == [] then ""
    else
      assert forall k :: 0 <= k < |pieces[1..]| ==> pieces[1..][k] == pieces[k + 1];
      [if pieces[0].Plainly? then pieces[0].c else EscapedChar(pieces[0].letter)] + Said(pieces[1..])
  }

  function EscapedChar(letter: char): char
    requires letter in ESCAPES
  {
    ESCAPES[letter] as char
  }

  predicate NumberOk(d: Doc)
    requires d.Number?
  {
    && d.whole != "" && AllDigits(d.whole)
    && (d.fraction.Some? ==> AllDigits(d.fraction.value))
    && (d.exponent.Some? ==>
          && (d.exponent.value.letter == 'e' || d.exponent.value.letter == 'E')
          && d.exponent.value.sign in {"", "+", "-"} && AllDigits(d.exponent.value.digits))
  }

  predicate DocOk(d: Doc)
    decreases d, 2
  {
    match d
    case Number(_, _, _, _) => NumberOk(d)
    case Text(pieces) => PiecesOk(pieces)
    case List(blank, items) => AllSpaces(blank) && ItemsOk(items)
    case Map(blank, entries) => AllSpaces(blank) && EntriesOk(entries)
    case _ => true
  }

  predicate ItemOk(i: Item)
    decreases i, 1
  {
    AllSpaces(i.before) && DocOk(i.doc) && AllSpaces(i.after)
  }

  predicate ItemsOk(items: seq<Item>)
    decreases items, 0
  {
    items == [] || (ItemOk(items[0]) && ItemsOk(items[1..]))
  }

  predicate EntryOk(e: Entry)
    decreases e, 1
  {
    AllSpaces(e.before) && PiecesOk(e.key) && AllSpaces(e.gap) && ItemOk(e.value)
  }

  predicate EntriesOk(entries: seq<Entry>)
    decreases entries, 0
  {
    entries == [] || (EntryOk(entries[0]) && EntriesOk(entries[1..]))
  }

  /** What a text says. A number with a fraction or an exponent is kept as its text. */
  function Meaning(d: Doc): Value
    requires DocOk(d)
    decreases d, 2
  {
    match d
    case Nothing => Null
    case Truth(b) => Bool(b)
    case Number(negative, whole, fraction, exponent) =>
      if fraction == None && exponent == None then
        Int(if negative then -(DigitsValue(whole) as int) else DigitsValue(whole))
      else Float(WriteNumber(d))
    case Text(pieces) => Str(Said(pieces))
    case List(_, items) => Arr(ItemMeanings(items))
    case Map(_, entries) => Obj(EntryMeanings(entries, []))
  }

  function ItemMeanings(items: seq<Item>): seq<Value>
    requires ItemsOk(items)
    decreases items, 0
  {
    if items == [] then []
    else
      assert ItemOk(items[0]);
      [Meaning(items[0].doc)] + ItemMeanings(items[1..])
  }

  /** Entries are assigned one after the other: a repeated key keeps its place and gets the new value. */
  function EntryMeanings(entries: seq<Entry>, before: seq<Field>): seq<Field>
    requires EntriesOk(entries)
    decreases entries, 0
  {
    if entries == [] then before
    else
      assert EntryOk(entries[0]) && ItemOk(entries[0].value);
      EntryMeanings(entries[1..], Put(before, Said(entries[0].key), Meaning(entries[0].value.doc)))
  }

  // ---------------------------------------------------------------- white space

  lemma {:induction false} SpacesSkipped(w: string, s: string, i: nat)
    requires AllSpaces(w) && StandsAt(w, s, i) && (i + |w| < |s| ==> !IsSpace(s[i + |w|]))
    ensures SkipSpaces(s, i) == i + |w|
    decreases |w|
  {
    if w != "" {
      StandsHead(w, s, i);
      assert s[i + 1..i + |w|] == w[1..];
      SpacesSkipped(w[1..], s, i + 1);
    }
  }

  // ---------------------------------------------------------------- strings

  lemma {:induction false} PiecesHead(pieces: seq<Piece>)
    requires pieces != []
    ensures PiecesOk(pieces) <==> PiecesOk([pieces[0]]) && PiecesOk(pieces[1..])
  {
    assert [pieces[0]][0] == pieces[0];
    assert forall k :: 0 <= k < |pieces[1..]| ==> pieces[1..][k] == pieces[k + 1];
    assert forall k :: 0 < k < |pieces| ==> pieces[k] == pieces[1..][k - 1];
  }

  lemma {:induction false} PiecesEnd(pieces: seq<Piece>, s: string, i: nat)
    requires PiecesOk(pieces) && StandsAt(WritePieces(pieces), s, i) && CharAt(s, i + |WritePieces(pieces)|, '"')
    ensures StringEnd(s, i) == i + |WritePieces(pieces)|
    decreases |pieces|
  {
    if pieces != [] {
      var first := if pieces[0].Plainly? then [pieces[0].c] else ['\\', pieces[0].letter];
      PiecesHead(pieces);
      StandsSplit(first, WritePieces(pieces[1..]), s, i);
      StandsHead(first, s, i);
      PiecesEnd(pieces[1..], s, i + |first|);
    }
  }

  lemma {:induction false} EscapeIs(letter: char)
    requires letter in ESCAPES
    ensures Escaped(letter) == Some([EscapedChar(letter)])
  {
  }

  /** What is read behind some text. */
  function Behind(head: string, rest: Option<string>): Option<string> {
    if rest.None? then None else Some(head + rest.value)
  }

  lemma {:induction false} FirstUnescaped(c: char, rest: string)
    ensures c != '\\' ==> Unescaped([c] + rest) == Behind([c], Unescaped(rest))
    ensures c in ESCAPES ==> Unescaped(['\\', c] + rest) == Behind([EscapedChar(c)], Unescaped(rest))
    ensures c == 'u' ==> Unescaped(['\\', c] + rest) == Behind("", Unescaped(rest))
    ensures c !in ESCAPES && c != 'u' ==> Unescaped(['\\', c] + rest) == None
  {
    if c in ESCAPES { EscapeIs(c); }
    hide EscapedChar;
    assert ([c] + rest)[1..] == rest && (['\\', c] + rest)[2..] == rest;
  }

  lemma {:induction false} BehindBoth(a: string, b: string, rest: Option<string>)
    ensures Behind(a, Behind(b, rest)) == Behind(a + b, rest) && Behind("", rest) == rest
  {
    if rest.Some? { assert a + (b + rest.value) == a + b + rest.value && "" + rest.value == rest.value; }
  }

  lemma {:induction false} PiecesUnescaped(pieces: seq<Piece>, rest: string)
    requires PiecesOk(pieces)
    ensures Unescaped(WritePieces(pieces) + rest) == Behind(Said(pieces), Unescaped(rest))
    decreases |pieces|
  {
    hide Unescaped, Behind;
    if pieces == [] {
      assert WritePieces(pieces) + rest == rest;
      BehindBoth("", "", Unescaped(rest));
    } else {
      var p, more := pieces[0], WritePieces(pieces[1..]) + rest;
      PiecesHead(pieces);
      PiecesUnescaped(pieces[1..], rest);
      FirstUnescaped(if p.Plainly? then p.c else p.letter, more);
      BehindBoth([if p.Plainly? then p.c else EscapedChar(p.letter)], Said(pieces[1..]), Unescaped(rest));
      assert WritePieces(pieces) + rest == (if p.Plainly? then [p.c] else ['\\', p.letter]) + more;
    }
  }

  /** No other letter may follow a backslash, but `u`, which is dropped with its backslash. */
  lemma {:induction false} OtherEscapes(pieces: seq<Piece>, letter: char, rest: string)
    requires PiecesOk(pieces) && letter !in ESCAPES
    ensures var r := Unescaped(WritePieces(pieces) + (['\\', letter] + rest));
            if letter == 'u' then r == Behind(Said(pieces), Unescaped(rest)) else r == None
  {
    hide Unescaped, WritePieces, Said;
    FirstUnescaped(letter, rest);
    PiecesUnescaped(pieces, ['\\', letter] + rest);
    if letter == 'u' { BehindBoth(Said(pieces), "", Unescaped(rest)); }
    assert Said(pieces) + "" == Said(pieces);
  }

  lemma {:induction false} TextReads(pieces: seq<Piece>, s: string, i: nat)
    requires PiecesOk(pieces) && StandsAt(WriteString(pieces), s, i)
    ensures CharAt(s, i, '"') && StringAt(s, i) == Done(Said(pieces), i + |WriteString(pieces)|)
  {
    hide Unescaped, StringEnd, WritePieces, Said, PiecesOk;
    var raw := WritePieces(pieces);
    StandsHead(WriteString(pieces), s, i);
    StandsSplit("\"", raw + "\"", s, i);
    StandsSplit(raw, "\"", s, i + 1);
    StandsHead("\"", s, i + 1 + |raw|);
    PiecesEnd(pieces, s, i + 1);
    PiecesUnescaped(pieces, "");
    assert raw + "" == raw && Unescaped("") == Some("") by { EmptyUnescaped(); }
    assert Said(pieces) + "" == Said(pieces);
  }

  lemma {:induction false} EmptyUnescaped()
    ensures Unescaped("") == Some("")
  {
  }

  // ---------------------------------------------------------------- numbers

  /** Nothing, or a character that ends a number. */
  predicate Stops(s: string, i: nat) {
    i == |s| || (i < |s| && (s[i] in {',', ']', '}'} || IsSpace(s[i])))
  }

  lemma {:induction false} DigitsRun(digits: string, s: string, i: nat)
    requires AllDigits(digits) && StandsAt(digits, s, i) && (i + |digits| < |s| ==> !IsDigit(s[i + |digits|]))
    ensures DigitsEnd(s, i) == i + |digits|
  {
    DigitsEndAt(s, i, i + |digits|);
  }

  /** Where a fraction or an exponent starts there is no digit. */
  lemma {:induction false} NoDigitAhead(part: string, s: string, i: nat)
    requires StandsAt(part, s, i) && (part != "" ==> part[0] in {'.', 'e', 'E'})
    requires part == "" ==> Stops(s, i)
    ensures i < |s| ==> !IsDigit(s[i])
  {
    if part != "" { StandsHead(part, s, i); }
  }

  lemma {:induction false} ExponentRead(e: Option<Exponent>, s: string, i: nat)
    requires e.Some? ==> (e.value.letter == 'e' || e.value.letter == 'E')
                         && e.value.sign in {"", "+", "-"} && AllDigits(e.value.digits)
    requires StandsAt(WriteExponent(e), s, i) && Stops(s, i + |WriteExponent(e)|)
    ensures ExponentEnd(s, i) == i + |WriteExponent(e)|
  {
    hide DigitsEnd, StandsAt;
    if e.Some? {
      hide Stops, ExponentEnd;
      ExponentPresent(e.value, s, i);
    }
  }

  lemma {:induction false} ExponentPresent(x: Exponent, s: string, i: nat)
    requires (x.letter == 'e' || x.letter == 'E') && x.sign in {"", "+", "-"} && AllDigits(x.digits)
    requires StandsAt([x.letter] + (x.sign + x.digits), s, i) && Stops(s, i + 1 + |x.sign| + |x.digits|)
    ensures ExponentEnd(s, i) == i + 1 + |x.sign| + |x.digits|
  {
    hide DigitsEnd, StandsAt, Stops, ExponentEnd;
    var digits := i + 1 + |x.sign|;
    StandsSplit([x.letter], x.sign + x.digits, s, i);
    StandsHead([x.letter], s, i);
    StandsSplit(x.sign, x.digits, s, i + 1);
    NoDigitStops(s, digits + |x.digits|);
    DigitsRun(x.digits, s, digits);
    SignRead(x.sign, x.digits, s, i + 1);
    ExponentIs(s, i, |x.sign|);
  }

  lemma {:induction false} NoDigitStops(s: string, i: nat)
    requires Stops(s, i)
    ensures i <= |s| && (i < |s| ==> !IsDigit(s[i]) && s[i] != '+' && s[i] != '-')
  {
  }

  lemma {:induction false} SignRead(sign: string, digits: string, s: string, i: nat)
    requires sign in {"", "+", "-"} && AllDigits(digits) && StandsAt(sign, s, i) && StandsAt(digits, s, i + |sign|)
    requires i + |sign| + |digits| < |s| ==> s[i + |sign| + |digits|] != '+' && s[i + |sign| + |digits|] != '-'
    ensures |sign| == if CharAt(s, i, '+') || CharAt(s, i, '-') then 1 else 0
  {
    if sign != "" {
      StandsHead(sign, s, i);
    } else if digits != "" {
      StandsHead(digits, s, i);
      assert IsDigit(digits[0]);
    }
  }

  lemma {:induction false} ExponentIs(s: string, i: nat, sign: nat)
    requires i < |s| && (s[i] == 'e' || s[i] == 'E') && i + 1 + sign <= |s|
    requires sign == if CharAt(s, i + 1, '+') || CharAt(s, i + 1, '-') then 1 else 0
    ensures ExponentEnd(s, i) == DigitsEnd(s, i + 1 + sign)
  {
    hide DigitsEnd;
  }

  lemma {:induction false} FractionRead(fraction: Option<string>, rest: string, s: string, i: nat)
    requires fraction.Some? ==> AllDigits(fraction.value)
    requires StandsAt(WriteFraction(fraction) + rest, s, i)
    requires (rest != "" ==> rest[0] in {'e', 'E'}) && Stops(s, i + |WriteFraction(fraction) + rest|)
    ensures FractionEnd(s, i) == i + |WriteFraction(fraction)|
  {
    hide DigitsEnd;
    var end := i + |WriteFraction(fraction)|;
    StandsSplit(WriteFraction(fraction), rest, s, i);
    NoDigitAhead(rest, s, end);
    if fraction.Some? {
      StandsSplit(".", fraction.value, s, i);
      StandsHead(".", s, i);
      DigitsRun(fraction.value, s, i + 1);
    } else if rest != "" {
      StandsHead(rest, s, i);
    }
  }

  function WriteTail(d: Doc): string
    requires d.Number?
  {
    WriteFraction(d.fraction) + WriteExponent(d.exponent)
  }

  /** What follows the digits of a number. */
  lemma {:induction false} TailReads(d: Doc, s: string, i: nat)
    requires d.Number? && NumberOk(d) && StandsAt(WriteTail(d), s, i) && Stops(s, i + |WriteTail(d)|)
    ensures ExponentEnd(s, FractionEnd(s, i)) == i + |WriteTail(d)|
    ensures i < |s| ==> !IsDigit(s[i])
  {
    hide FractionEnd, ExponentEnd, WriteFraction, WriteExponent, Stops, StandsAt;
    var fraction, exponent := WriteFraction(d.fraction), WriteExponent(d.exponent);
    TailStarts(d);
    NoDigitAhead(fraction + exponent, s, i);
    FractionRead(d.fraction, exponent, s, i);
    StandsSplit(fraction, exponent, s, i);
    ExponentRead(d.exponent, s, i + |fraction|);
  }

  /** The digits of a number and what follows them. */
  lemma {:induction false} MagnitudeReads(d: Doc, s: string, i: nat)
    requires d.Number? && NumberOk(d)
    requires StandsAt(d.whole + WriteTail(d), s, i) && Stops(s, i + |d.whole + WriteTail(d)|)
    ensures i < |s| && IsDigit(s[i]) && StandsAt(d.whole, s, i)
    ensures var whole := i + |d.whole|;
            && DigitsEnd(s, i) == whole <= |s|
            && ExponentEnd(s, FractionEnd(s, whole)) == i + |d.whole + WriteTail(d)|
  {
    hide DigitsEnd, FractionEnd, ExponentEnd, WriteTail, Stops, StandsAt;
    var whole := i + |d.whole|;
    StandsSplit(d.whole, WriteTail(d), s, i);
    StandsHead(d.whole, s, i);
    assert IsDigit(d.whole[0]);
    TailReads(d, s, whole);
    DigitsRun(d.whole, s, i);
    StandsWithin(d.whole, s, i);
  }

  lemma {:induction false} StandsWithin(part: string, s: string, i: nat)
    requires StandsAt(part, s, i)
    ensures i + |part| <= |s|
  {
  }

  lemma {:induction false} NumberReads(d: Doc, s: string, i: nat)
    requires d.Number? && NumberOk(d) && StandsAt(WriteNumber(d), s, i) && Stops(s, i + |WriteNumber(d)|)
    ensures i < |s| && (s[i] == '-' || IsDigit(s[i]))
    ensures NumberAt(s, i) == Done(Meaning(d), i + |WriteNumber(d)|)
  {
    hide DigitsEnd, FractionEnd, ExponentEnd, WriteTail, Stops, StandsAt, NumberAt, Meaning, NumberOk, WriteNumber;
    var magnitude := d.whole + WriteTail(d);
    NumberParts(d);
    if d.negative {
      StandsSplit("-", magnitude, s, i);
      StandsHead("-", s, i);
      MagnitudeReads(d, s, i + 1);
      NumberFound(d, s, i, i + 1, i + 1 + |d.whole|);
    } else {
      assert WriteNumber(d) == magnitude;
      MagnitudeReads(d, s, i);
      NumberFound(d, s, i, i, i + |d.whole|);
    }
  }

  lemma {:induction false} NumberParts(d: Doc)
    requires d.Number?
    ensures WriteNumber(d) == (if d.negative then "-" else "") + (d.whole + WriteTail(d))
  {
  }

  lemma {:induction false} NumberFound(d: Doc, s: string, i: nat, start: nat, whole: nat)
    requires d.Number? && NumberOk(d) && StandsAt(WriteNumber(d), s, i) && StandsAt(d.whole, s, start)
    requires i < |s| && (s[i] == '-' <==> d.negative) && start == (if d.negative then i + 1 else i)
    requires whole == start + |d.whole| && DigitsEnd(s, start) == whole
    requires ExponentEnd(s, FractionEnd(s, whole)) == i + |WriteNumber(d)|
    ensures NumberAt(s, i) == Done(Meaning(d), i + |WriteNumber(d)|)
  {
    hide DigitsEnd, FractionEnd, ExponentEnd, DigitsValue, WriteFraction, WriteExponent;
    TailStarts(d);
    assert s[i..i + |WriteNumber(d)|] == WriteNumber(d) && s[start..whole] == d.whole;
  }

  lemma {:induction false} TailStarts(d: Doc)
    requires d.Number? && NumberOk(d)
    ensures var tail := WriteFraction(d.fraction) + WriteExponent(d.exponent);
            && (tail != "" ==> tail[0] in {'.', 'e', 'E'})
            && (tail == "" <==> d.fraction == None && d.exponent == None)
            && (WriteExponent(d.exponent) != "" ==> WriteExponent(d.exponent)[0] in {'e', 'E'})
  {
  }

  // ---------------------------------------------------------------- values

  /** A value starts with no white space and with no closing bracket. */
  lemma {:induction false} DocStarts(d: Doc, s: string, i: nat)
    requires DocOk(d) && StandsAt(Write(d), s, i)
    ensures i < |s| && !IsSpace(s[i]) && s[i] !in {']', '}'}
  {
    hide StandsAt, WriteItem, WriteItems, WriteEntry, WriteEntries, WriteFraction, WriteExponent, ItemsOk, EntriesOk;
    if d.Number? {
      assert IsDigit(d.whole[0]);
      assert Write(d)[0] == if d.negative then '-' else d.whole[0];
    }
    StandsHead(Write(d), s, i);
  }

  lemma {:induction false} DocReads(d: Doc, s: string, i: nat)
    requires DocOk(d) && StandsAt(Write(d), s, i) && Stops(s, i + |Write(d)|)
    ensures ValueAt(s, i) == Done(Meaning(d), i + |Write(d)|)
    decreases d, 2
  {
    hide ItemsAt, EntriesAt, NumberAt, StringAt, Stops, WriteNumber, NumberOk, PiecesOk, StandsAt, ItemsOk, EntriesOk;
    hide WriteString;
    match d
    case Nothing => WordReads("null", s, i);
    case Truth(b) => WordReads(Write(d), s, i);
    case Number(_, _, _, _) =>
      NumberReads(d, s, i);
      NumberValue(s, i);
    case Text(pieces) => TextReads(pieces, s, i);
    case List(_, _) => ListReads(d, s, i);
    case Map(_, _) => MapReads(d, s, i);
  }

  lemma {:induction false} WordReads(word: string, s: string, i: nat)
    requires word in {"null", "true", "false"} && StandsAt(word, s, i)
    ensures ValueAt(s, i) == Done(if word == "null" then Null else Bool(word == "true"), i + |word|)
  {
    WordHead(s, i, word);
  }

  lemma {:induction false} NumberValue(s: string, i: nat)
    requires i < |s| && (s[i] == '-' || IsDigit(s[i]))
    ensures ValueAt(s, i) == NumberAt(s, i)
  {
    hide NumberAt;
  }

  /** Where the parts of an item stand. */
  lemma {:induction false} ItemParts(item: Item, rest: string, s: string, i: nat) returns (at: nat, next: nat)
    requires ItemOk(item) && StandsAt(WriteItem(item) + rest, s, i) && rest != "" && rest[0] in {',', ']', '}'}
    ensures at == i + |item.before| && next == at + |Write(item.doc)| && |WriteItem(item)| == next - i + |item.after|
    ensures StandsAt(item.before, s, i) && StandsAt(Write(item.doc), s, at) && StandsAt(item.after, s, next)
    ensures SkipSpaces(s, i) == at < |s| && !IsSpace(s[at]) && s[at] !in {']', '}'} && Stops(s, next)
    ensures SkipSpaces(s, next) == next + |item.after| && CharAt(s, next + |item.after|, rest[0])
  {
    hide StandsAt, Write, SkipSpaces, Stops;
    at, next := i + |item.before|, i + |item.before| + |Write(item.doc)|;
    StandsSplit(WriteItem(item), rest, s, i);
    StandsSplit(item.before, Write(item.doc) + item.after, s, i);
    StandsSplit(Write(item.doc), item.after, s, at);
    DocStarts(item.doc, s, at);
    SpacesSkipped(item.before, s, i);
    StandsHead(rest, s, next + |item.after|);
    SpacesSkipped(item.after, s, next);
    AfterStops(item.after, rest[0], s, next);
  }

  /** An item's value, from the first character that is no white space, and the white space behind it. */
  lemma {:induction false} ItemReads(item: Item, rest: string, s: string, i: nat)
    requires ItemOk(item) && StandsAt(WriteItem(item) + rest, s, i) && rest != "" && rest[0] in {',', ']', '}'}
    ensures var at := SkipSpaces(s, i);
            && at < |s| && s[at] !in {']', '}'} && ValueAt(s, at).Done? && ValueAt(s, at).value == Meaning(item.doc)
            && SkipSpaces(s, ValueAt(s, at).next) == i + |WriteItem(item)|
    decreases item, 1
  {
    hide StandsAt, Write, WriteItem, ValueAt, SkipSpaces, Stops, Meaning;
    var at, next := ItemParts(item, rest, s, i);
    DocReads(item.doc, s, at);
  }

  lemma {:induction false} AfterStops(after: string, c: char, s: string, i: nat)
    requires AllSpaces(after) && StandsAt(after, s, i) && CharAt(s, i + |after|, c) && c in {',', ']', '}'}
    ensures Stops(s, i)
  {
    if after != "" { StandsHead(after, s, i); }
  }

  lemma {:induction false} BlankReads(open: char, close: char, blank: string, s: string, i: nat)
    requires AllSpaces(blank) && close in {']', '}'} && StandsAt([open] + (blank + [close]), s, i)
    ensures CharAt(s, i, open) && SkipSpaces(s, i + 1) == i + 1 + |blank| && CharAt(s, i + 1 + |blank|, close)
  {
    StandsSplit([open], blank + [close], s, i);
    StandsSplit(blank, [close], s, i + 1);
    StandsHead([open], s, i);
    StandsHead([close], s, i + 1 + |blank|);
    SpacesSkipped(blank, s, i + 1);
  }

  lemma {:induction false} ListReads(d: Doc, s: string, i: nat)
    requires d.List? && DocOk(d) && StandsAt(Write(d), s, i)
    ensures ValueAt(s, i) == Done(Meaning(d), i + |Write(d)|)
    decreases d, 1
  {
    hide ItemsAt, EntriesAt, SkipSpaces, StandsAt, WriteItem, ItemOk;
    if d.items == [] {
      BlankReads('[', ']', d.blank, s, i);
    } else {
      var inner := WriteItem(d.items[0]) + WriteItems(d.items[1..]);
      assert Write(d) == "[" + inner;
      StandsSplit("[", inner, s, i);
      StandsHead("[", s, i);
      ItemsEnd(d.items[1..]);
      ItemReads(d.items[0], WriteItems(d.items[1..]), s, i + 1);
      ItemsRead(d.items, s, i + 1, []);
      assert [] + ItemMeanings(d.items) == ItemMeanings(d.items);
    }
  }

  lemma {:induction false} ItemsEnd(items: seq<Item>)
    ensures WriteItems(items) != "" && WriteItems(items)[0] == if items == [] then ']' else ','
  {
    hide WriteItem;
  }

  /** Items from their first on, at or before its first character that is no white space. */
  lemma {:induction false} ItemsRead(items: seq<Item>, s: string, i: nat, before: seq<Value>)
    requires items != [] && ItemsOk(items) && StandsAt(WriteItem(items[0]) + WriteItems(items[1..]), s, i)
    ensures ItemsAt(s, SkipSpaces(s, i), before)
            == Done(Arr(before + ItemMeanings(items)), i + |WriteItem(items[0])| + |WriteItems(items[1..])|)
    decreases items, 0
  {
    hide ItemsAt, ValueAt, SkipSpaces, StandsAt, WriteItem, WriteItems, DocOk, AllSpaces, Meaning, ItemMeanings;
    var item, rest, more := items[0], items[1..], i + |WriteItem(items[0])|;
    assert ItemOk(item) && ItemsOk(rest);
    ItemsEnd(rest);
    MeaningsHead(items);
    ItemReads(item, WriteItems(rest), s, i);
    StandsSplit(WriteItem(item), WriteItems(rest), s, i);
    StandsHead(WriteItems(rest), s, more);
    ItemsTurn(s, SkipSpaces(s, i), before);
    ItemsTail(rest);
    if rest == [] {
      assert before + ItemMeanings(items) == before + [Meaning(item.doc)];
    } else {
      var inner := WriteItem(rest[0]) + WriteItems(rest[1..]);
      StandsSplit(",", inner, s, more);
      ItemsRead(rest, s, more + 1, before + [Meaning(item.doc)]);
      assert before + ItemMeanings(items) == before + [Meaning(item.doc)] + ItemMeanings(rest);
    }
  }

  lemma {:induction false} MeaningsHead(items: seq<Item>)
    requires items != [] && ItemsOk(items)
    ensures ItemOk(items[0]) && ItemsOk(items[1..])
    ensures ItemMeanings(items) == [Meaning(items[0].doc)] + ItemMeanings(items[1..]) && ItemMeanings([]) == []
  {
    hide Meaning, DocOk, AllSpaces;
  }

  lemma {:induction false} ItemsTail(items: seq<Item>)
    ensures items == [] ==> WriteItems(items) == "]"
    ensures items != [] ==> WriteItems(items) == "," + (WriteItem(items[0]) + WriteItems(items[1..]))
  {
    hide WriteItem;
  }

  /** One turn of the loop over items. */
  lemma {:induction false} ItemsTurn(s: string, i: nat, before: seq<Value>)
    requires ValueAt(s, i).Done?
    ensures var v := ValueAt(s, i);
            var more := SkipSpaces(s, v.next);
            && (CharAt(s, more, ']') ==> ItemsAt(s, i, before) == Done(Arr(before + [v.value]), more + 1))
            && (CharAt(s, more, ',') ==>
                  ItemsAt(s, i, before) == ItemsAt(s, SkipSpaces(s, more + 1), before + [v.value]))
            && (!CharAt(s, more, ']') && !CharAt(s, more, ',') ==> ItemsAt(s, i, before) == Failed(JsonError))
  {
    hide ValueAt, SkipSpaces;
  }

  lemma {:induction false} MapReads(d: Doc, s: string, i: nat)
    requires d.Map? && DocOk(d) && StandsAt(Write(d), s, i)
    ensures ValueAt(s, i) == Done(Meaning(d), i + |Write(d)|)
    decreases d, 1
  {
    hide ItemsAt, EntriesAt, SkipSpaces, StandsAt, WriteEntry, AllSpaces, PiecesOk;
    if d.entries == [] {
      BlankReads('{', '}', d.blank, s, i);
    } else {
      var inner := WriteEntry(d.entries[0]) + WriteEntries(d.entries[1..]);
      assert Write(d) == "{" + inner;
      StandsSplit("{", inner, s, i);
      StandsHead("{", s, i);
      EntriesEnd(d.entries[1..]);
      assert EntryOk(d.entries[0]) && ItemOk(d.entries[0].value);
      EntryReads(d.entries[0], WriteEntries(d.entries[1..]), s, i + 1);
      EntriesRead(d.entries, s, i + 1, []);
    }
  }

  lemma {:induction false} EntriesEnd(entries: seq<Entry>)
    ensures WriteEntries(entries) != "" && WriteEntries(entries)[0] == if entries == [] then '}' else ','
  {
    hide WriteEntry;
  }

  /** Where the parts of an entry stand. */
  lemma {:induction false} EntryParts(e: Entry, rest: string, s: string, i: nat) returns (at: nat, colon: nat)
    requires StandsAt(WriteEntry(e) + rest, s, i)
    ensures at == i + |e.before| && colon == at + |WriteString(e.key)| + |e.gap|
    ensures StandsAt(e.before, s, i) && StandsAt(WriteString(e.key), s, at)
    ensures StandsAt(e.gap, s, at + |WriteString(e.key)|) && CharAt(s, colon, ':')
    ensures StandsAt(WriteItem(e.value) + rest, s, colon + 1)
    ensures |WriteEntry(e)| == (colon + 1 - i) + |WriteItem(e.value)|
  {
    hide StandsAt, WriteItem, WriteString;
    at := i + |e.before|;
    var gap := at + |WriteString(e.key)|;
    colon := gap + |e.gap|;
    StandsSplit(WriteEntry(e), rest, s, i);
    StandsSplit(e.before, WriteString(e.key) + (e.gap + (":" + WriteItem(e.value))), s, i);
    StandsSplit(WriteString(e.key), e.gap + (":" + WriteItem(e.value)), s, at);
    StandsSplit(e.gap, ":" + WriteItem(e.value), s, gap);
    StandsSplit(":", WriteItem(e.value), s, colon);
    StandsHead(":", s, colon);
    StandsBoth(WriteItem(e.value), rest, s, colon + 1);
  }

  lemma {:induction false} EntryReads(e: Entry, rest: string, s: string, i: nat)
    requires EntryOk(e) && ItemOk(e.value)
    requires StandsAt(WriteEntry(e) + rest, s, i) && rest != "" && rest[0] in {',', ']', '}'}
    ensures var at := SkipSpaces(s, i);
            && CharAt(s, at, '"') && EntryAt(s, at).Done?
            && EntryAt(s, at).value == Field(Said(e.key), Meaning(e.value.doc))
            && SkipSpaces(s, EntryAt(s, at).next) == i + |WriteEntry(e)|
    decreases e, 1
  {
    hide StandsAt, WriteItem, WriteString, ValueAt, StringAt, SkipSpaces, PiecesOk, DocOk, AllSpaces, Meaning, Said;
    hide WriteEntry, EntryAt;
    var at, colon := EntryParts(e, rest, s, i);
    TextReads(e.key, s, at);
    QuoteAhead(s, at);
    SpacesSkipped(e.before, s, i);
    SpacesSkipped(e.gap, s, at + |WriteString(e.key)|);
    ItemReads(e.value, rest, s, colon + 1);
    EntryIs(s, at, Said(e.key), at + |WriteString(e.key)|, colon);
  }

  lemma {:induction false} QuoteAhead(s: string, i: nat)
    requires CharAt(s, i, '"')
    ensures i < |s| && !IsSpace(s[i])
  {
  }

  lemma {:induction false} EntryIs(s: string, i: nat, key: string, next: nat, colon: nat)
    requires StringAt(s, i) == Done(key, next) && SkipSpaces(s, next) == colon && CharAt(s, colon, ':')
    ensures var v := ValueAt(s, SkipSpaces(s, colon + 1));
            v.Done? ==> EntryAt(s, i) == Done(Field(key, v.value), v.next)
  {
    hide StringAt, SkipSpaces, ValueAt;
  }

  lemma {:induction false} StandsBoth(a: string, b: string, s: string, i: nat)
    requires StandsAt(a, s, i) && StandsAt(b, s, i + |a|)
    ensures StandsAt(a + b, s, i)
  {
    assert s[i..i + |a + b|] == s[i..i + |a|] + s[i + |a|..i + |a| + |b|];
  }

  lemma {:induction false} EntriesRead(entries: seq<Entry>, s: string, i: nat, before: seq<Field>)
    requires entries != [] && EntriesOk(entries) && StandsAt(WriteEntry(entries[0]) + WriteEntries(entries[1..]), s, i)
    ensures EntriesAt(s, SkipSpaces(s, i), before)
            == Done(Obj(EntryMeanings(entries, before)),
                    i + |WriteEntry(entries[0])| + |WriteEntries(entries[1..])|)
    decreases entries, 0
  {
    hide EntriesAt, EntryAt, SkipSpaces, StandsAt, WriteEntry, DocOk, AllSpaces, PiecesOk, Meaning, Said, Put;
    var e, rest, more := entries[0], entries[1..], i + |WriteEntry(entries[0])|;
    assert EntryOk(e) && ItemOk(e.value) && EntriesOk(rest);
    EntriesEnd(rest);
    EntryReads(e, WriteEntries(rest), s, i);
    StandsSplit(WriteEntry(e), WriteEntries(rest), s, i);
    StandsHead(WriteEntries(rest), s, more);
    EntriesTurn(s, SkipSpaces(s, i), before);
    if rest != [] {
      var inner := WriteEntry(rest[0]) + WriteEntries(rest[1..]);
      assert WriteEntries(rest) == "," + inner;
      StandsSplit(",", inner, s, more);
      EntriesRead(rest, s, more + 1, Put(before, Said(e.key), Meaning(e.value.doc)));
    }
  }

  /** One turn of the loop over entries. */
  lemma {:induction false} EntriesTurn(s: string, i: nat, before: seq<Field>)
    requires EntryAt(s, i).Done?
    ensures var e := EntryAt(s, i);
            var more, all := SkipSpaces(s, e.next), Put(before, e.value.key, e.value.value);
            && (CharAt(s, more, '}') ==> EntriesAt(s, i, before) == Done(Obj(all), more + 1))
            && (CharAt(s, more, ',') ==> EntriesAt(s, i, before) == EntriesAt(s, SkipSpaces(s, more + 1), all))
            && (!CharAt(s, more, '}') && !CharAt(s, more, ',') ==> EntriesAt(s, i, before) == Failed(JsonError))
  {
    hide EntryAt, SkipSpaces;
  }

  // ---------------------------------------------------------------- documents

  /** Every text of the grammar is read as what it says. */
  lemma {:induction false} TextIsRead(d: Doc)
    requires DocOk(d)
    ensures ValueAt(Write(d), 0) == Done(Meaning(d), |Write(d)|)
  {
    hide DocOk, Write, ValueAt, Meaning;
    assert Write(d)[0..0 + |Write(d)|] == Write(d);
    DocReads(d, Write(d), 0);
  }

  /** White space in front of the document is an error. */
  lemma {:induction false} LeadingSpaceFails(s: string)
    requires s == "" || AllSpaces(s[..1])
    ensures ValueAt(s, 0) == Failed(ParserError)
  {
    if s != "" { assert s[..1][0] == s[0]; }
  }

  /** The parser, run on any text of the grammar. */
  method ReadText(d: Doc) returns (r: Outcome<Value>)
    requires DocOk(d)
    ensures r == Done(Meaning(d), |Write(d)|)
  {
    hide DocOk, Write, ValueAt, Meaning;
    var parser := new Parser(Write(d));
    r := parser.Parse();
    TextIsRead(d);
  }
}
