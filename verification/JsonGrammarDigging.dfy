/** Digging in texts of the JSON grammar that nobody generated: when it finds what it looks for. */
module JsonGrammarDigging {
  import opened Options
  import opened Hashes
  import opened Decimal
  import opened JsonText
  import opened JsonParser
  import opened JsonRoundTrip
  import opened JsonGrammar
  import opened JsonDigger
  import opened JsonDigging
  import Blanks

  // ---------------------------------------------------------------- texts the scan can pass

  /** No plus sign in an exponent, no white space in an empty object, and none behind the last item of an
      array: the scan takes these for something else. */
  predicate Diggable(d: Doc)
    decreases d, 2
  {
    match d
    case Number(_, _, _, exponent) => exponent.Some? ==> exponent.value.sign != "+"
    case List(_, items) => (items != [] ==> items[|items| - 1].after == "") && ItemsDiggable(items)
    case Map(blank, entries) => (entries == [] ==> blank == "") && EntriesDiggable(entries)
    case _ => true
  }

  predicate ItemsDiggable(items: seq<Item>)
    decreases items, 0
  {
    items == [] || (Diggable(items[0].doc) && ItemsDiggable(items[1..]))
  }

  predicate EntriesDiggable(entries: seq<Entry>)
    decreases entries, 0
  {
    entries == [] || (Diggable(entries[0].value.doc) && EntriesDiggable(entries[1..]))
  }

  // ---------------------------------------------------------------- passing values

  lemma {:induction false} NumberPassed(part: string, s: string, i: nat)
    requires StandsAt(part, s, i) && forall k :: 0 <= k < |part| ==> NumberChar(part[k])
    requires i + |part| < |s| ==> !NumberChar(s[i + |part|])
    ensures NumberStop(s, i) == i + |part|
    decreases |part|
  {
    if part != "" {
      StandsHead(part, s, i);
      assert s[i + 1..i + |part|] == part[1..];
      assert forall k :: 0 <= k < |part[1..]| ==> part[1..][k] == part[k + 1];
      NumberPassed(part[1..], s, i + 1);
    }
  }

  lemma {:induction false} NumberChars(d: Doc)
    requires d.Number? && NumberOk(d) && Diggable(d)
    ensures forall k :: 0 <= k < |WriteNumber(d)| ==> NumberChar(WriteNumber(d)[k])
    ensures WriteNumber(d) != "" && (WriteNumber(d)[0] == '-' || IsDigit(WriteNumber(d)[0]))
  {
    var sign := if d.negative then "-" else "";
    var fraction, exponent := WriteFraction(d.fraction), WriteExponent(d.exponent);
    assert AllNumber(sign) && AllNumber(d.whole);
    assert AllNumber(fraction) by { if d.fraction.Some? { assert AllNumber("."); Joined(".", d.fraction.value); } }
    assert AllNumber(exponent) by {
      if d.exponent.Some? {
        var x := d.exponent.value;
        Joined(x.sign, x.digits);
        Joined([x.letter], x.sign + x.digits);
      }
    }
    hide WriteFraction, WriteExponent;
    Joined(fraction, exponent);
    Joined(d.whole, fraction + exponent);
    Joined(sign, d.whole + (fraction + exponent));
    assert IsDigit(d.whole[0]);
  }

  predicate AllNumber(s: string) {
    forall k :: 0 <= k < |s| ==> NumberChar(s[k])
  }

  lemma {:induction false} Joined(a: string, b: string)
    requires AllNumber(a) && AllNumber(b)
    ensures AllNumber(a + b)
  {
  }

  lemma {:induction false} StringDug(pieces: seq<Piece>, s: string, i: nat)
    requires PiecesOk(pieces) && StandsAt(WriteString(pieces), s, i)
    ensures CharAt(s, i, '"') && DugString(s, i) == Done(WritePieces(pieces), i + |WriteString(pieces)|)
  {
    hide StringEnd, WritePieces, PiecesOk, SkipSpaces;
    var raw := WritePieces(pieces);
    StandsHead(WriteString(pieces), s, i);
    StandsSplit("\"", raw + "\"", s, i);
    StandsSplit(raw, "\"", s, i + 1);
    StandsHead("\"", s, i + 1 + |raw|);
    PiecesEnd(pieces, s, i + 1);
    QuoteIsNoSpace(s, i);
  }

  /** The scan of a value starts behind white space. */
  lemma {:induction false} PassSkips(s: string, i: nat, stack: seq<Kind>)
    ensures PassValue(s, i, stack) == PassValue(s, SkipSpaces(s, i), stack)
  {
    hide SearchObject, PassArray, DugString, NumberStop;
    SkippedTwice(s, i);
  }

  lemma {:induction false} SkippedTwice(s: string, i: nat)
    ensures SkipSpaces(s, SkipSpaces(s, i)) == SkipSpaces(s, i)
  {
  }

  lemma {:induction false} NoNumberStops(s: string, i: nat)
    requires Stops(s, i) && i < |s|
    ensures !NumberChar(s[i])
  {
  }

  lemma {:induction false} DocPasses(d: Doc, s: string, i: nat, stack: seq<Kind>)
    requires DocOk(d) && Diggable(d) && StandsAt(Write(d), s, i) && Stops(s, i + |Write(d)|)
    ensures StopsAt(PassValue(s, i, stack), i + |Write(d)|)
    decreases d, 2
  {
    hide SearchObject, PassArray, NumberStop, DugString, SkipSpaces, Stops, WriteNumber, NumberOk, PiecesOk;
    hide WriteString, AllSpaces, StandsAt, NumberChar;
    DocStarts(d, s, i);
    NoSpace(s, i);
    StandsHead(Write(d), s, i) by { DocWritten(d); }
    match d
    case Nothing =>
    case Truth(b) =>
    case Number(_, _, _, _) =>
      NumberChars(d);
      if i + |Write(d)| < |s| { NoNumberStops(s, i + |Write(d)|); }
      NumberPassed(Write(d), s, i);
    case Text(pieces) =>
      StringDug(pieces, s, i);
    case List(_, _) =>
      ListPasses(d, s, i, stack);
    case Map(_, _) =>
      MapRuns(d, s, i, stack);
  }

  lemma {:induction false} DocWritten(d: Doc)
    requires DocOk(d)
    ensures Write(d) != ""
  {
    hide WriteItem, WriteItems, WriteEntry, WriteEntries, WriteFraction, WriteExponent;
  }

  lemma {:induction false} ListPasses(d: Doc, s: string, i: nat, stack: seq<Kind>)
    requires d.List? && DocOk(d) && Diggable(d) && StandsAt(Write(d), s, i)
    ensures StopsAt(PassArray(s, i, stack), i + |Write(d)|) && CharAt(s, i, '[')
    decreases d, 1
  {
    hide PassItems, WriteItem, SkipSpaces, StandsAt, AllSpaces, Diggable, DocOk;
    ListParts(d);
    if d.items == [] {
      BlankReads('[', ']', d.blank, s, i);
      NoSpace(s, i);
      PassItemsStep(s, i + 1 + |d.blank|, stack + [Array]);
    } else {
      var inner := WriteItem(d.items[0]) + WriteItems(d.items[1..]);
      assert Write(d) == "[" + inner;
      StandsSplit("[", inner, s, i);
      StandsHead("[", s, i);
      NoSpace(s, i);
      ItemsPass(d.items, s, i + 1, stack + [Array]);
    }
  }

  lemma {:induction false} ListParts(d: Doc)
    requires d.List? && DocOk(d) && Diggable(d)
    ensures AllSpaces(d.blank) && ItemsOk(d.items) && ItemsDiggable(d.items)
    ensures d.items != [] ==> d.items[|d.items| - 1].after == ""
  {
    hide AllSpaces;
  }

  /** What stands behind an item, up to the next one. */
  lemma {:induction false} BehindItem(item: Item, rest: seq<Item>, s: string, next: nat, stack: seq<Kind>)
    requires rest == [] ==> item.after == ""
    requires SkipSpaces(s, next) == next + |item.after|
    requires CharAt(s, next + |item.after|, if rest == [] then ']' else ',')
    requires item.after != "" ==> next < |s| && s[next] !in {']', ','}
    ensures rest == [] ==> PassItems(s, next, stack) == Passed(next + 1, stack)
    ensures rest != [] ==> PassItems(s, next, stack) == PassItems(s, next + |item.after| + 1, stack)
  {
    hide PassItems, SkipSpaces;
    PassItemsStep(s, next, stack);
    if rest != [] && item.after != "" { CommaPassed(s, next, stack); }
  }

  /** White space and a comma are passed as if they were a value. */
  lemma {:induction false} CommaPassed(s: string, i: nat, stack: seq<Kind>)
    requires CharAt(s, SkipSpaces(s, i), ',')
    ensures PassValue(s, i, stack) == Passed(SkipSpaces(s, i) + 1, stack)
  {
    hide SkipSpaces;
  }

  lemma {:induction false} SpaceAhead(w: string, s: string, i: nat)
    requires AllSpaces(w) && StandsAt(w, s, i) && w != ""
    ensures i < |s| && s[i] !in {']', ',', '}', '"'}
  {
    StandsHead(w, s, i);
  }

  /** Items from the first on, at or before its first character that is no white space. */
  lemma {:induction false} ItemsPass(items: seq<Item>, s: string, i: nat, stack: seq<Kind>)
    requires items != [] && ItemsOk(items) && ItemsDiggable(items) && items[|items| - 1].after == ""
    requires StandsAt(WriteItem(items[0]) + WriteItems(items[1..]), s, i)
    ensures StopsAt(PassItems(s, i, stack), i + |WriteItem(items[0])| + |WriteItems(items[1..])|)
    ensures StopsAt(PassItems(s, SkipSpaces(s, i), stack), i + |WriteItem(items[0])| + |WriteItems(items[1..])|)
    decreases items, 0
  {
    hide PassItems, PassValue, Write, WriteItem, WriteItems, SkipSpaces, StandsAt, Diggable, DocOk, AllSpaces, Stops;
    var item, rest := items[0], items[1..];
    assert ItemOk(item) && ItemsOk(rest);
    ItemsEnd(rest);
    ItemsTail(rest);
    var at, next := ItemParts(item, WriteItems(rest), s, i);
    StandsSplit(WriteItem(item), WriteItems(rest), s, i);
    DocPasses(item.doc, s, at, stack);
    var after := PassValue(s, at, stack).stack;
    FirstPasses(item, s, i, at, stack);
    if item.after != "" { SpaceAhead(item.after, s, next); }
    BehindItem(item, rest, s, next, after);
    if rest != [] {
      assert rest[|rest| - 1] == items[|items| - 1];
      StandsSplit(",", WriteItem(rest[0]) + WriteItems(rest[1..]), s, next + |item.after|);
      ItemsPass(rest, s, next + |item.after| + 1, after);
    }
  }

  /** The first value is passed from its own start and from the white space before it. */
  lemma {:induction false} FirstPasses(item: Item, s: string, i: nat, at: nat, stack: seq<Kind>)
    requires ItemOk(item) && StandsAt(item.before, s, i) && at == i + |item.before|
    requires SkipSpaces(s, i) == at < |s| && !IsSpace(s[at]) && s[at] !in {']', '}'}
    requires StandsAt(Write(item.doc), s, at)
    requires PassValue(s, at, stack).Passed?
    ensures var v := PassValue(s, at, stack);
            PassItems(s, i, stack) == PassItems(s, at, stack) == PassItems(s, v.index, v.stack)
  {
    hide PassItems, PassValue, Write, SkipSpaces, StandsAt, DocOk, AllSpaces;
    NoComma(item.doc, s, at);
    PassItemsStep(s, at, stack);
    if item.before != "" {
      SpaceAhead(item.before, s, i);
      PassItemsStep(s, i, stack);
      PassSkips(s, i, stack);
    }
  }

  lemma {:induction false} NoComma(d: Doc, s: string, i: nat)
    requires DocOk(d) && StandsAt(Write(d), s, i)
    ensures CharAt(s, i, Write(d)[0]) && s[i] != ','
  {
    hide StandsAt, WriteItem, WriteItems, WriteEntry, WriteEntries, WriteFraction, WriteExponent, ItemsOk, EntriesOk;
    if d.Number? {
      assert IsDigit(d.whole[0]);
      assert Write(d)[0] == if d.negative then '-' else d.whole[0];
    }
    StandsHead(Write(d), s, i);
  }

  // ---------------------------------------------------------------- objects

  lemma {:induction false} MapRuns(d: Doc, s: string, i: nat, stack: seq<Kind>)
    requires d.Map? && DocOk(d) && Diggable(d) && StandsAt(Write(d), s, i)
    ensures RunsTo(SearchObject(s, i, None, stack), i + |Write(d)|) && CharAt(s, i, '{')
    decreases d, 1
  {
    hide SearchEntries, WriteEntry, SkipSpaces, StandsAt, AllSpaces, Diggable, DocOk, Pop;
    MapParts(d);
    MapOpens(d, s, i);
    ObjectOpens(s, i, None, stack);
    if d.entries == [] {
      EmptyObject(s, i + 1, None, stack);
    } else {
      EntriesPass(d.entries, s, i + 1, stack + [Object]);
    }
  }

  lemma {:induction false} MapParts(d: Doc)
    requires d.Map? && DocOk(d) && Diggable(d)
    ensures EntriesOk(d.entries) && EntriesDiggable(d.entries) && (d.entries == [] ==> d.blank == "")
  {
    hide AllSpaces;
  }

  lemma {:induction false} MapOpens(d: Doc, s: string, i: nat)
    requires d.Map? && StandsAt(Write(d), s, i) && (d.entries == [] ==> d.blank == "")
    ensures CharAt(s, i, '{') && SkipSpaces(s, i) == i
    ensures d.entries == [] ==> CharAt(s, i + 1, '}') && |Write(d)| == 2
    ensures d.entries != [] ==>
      var inner := WriteEntry(d.entries[0]) + WriteEntries(d.entries[1..]);
      StandsAt(inner, s, i + 1) && |Write(d)| == 1 + |inner|
  {
    hide WriteEntry, WriteEntries, SkipSpaces, StandsAt;
    var entries := d.entries;
    var inner := if entries == [] then "}" else WriteEntry(entries[0]) + WriteEntries(entries[1..]);
    assert Write(d) == "{" + inner;
    StandsSplit("{", inner, s, i);
    StandsHead("{", s, i);
    NoSpace(s, i);
    if entries == [] { StandsHead("}", s, i + 1); }
  }

  /** A key and its colon are read, the key as it is written; the value is behind them and passed. */
  lemma {:induction false} EntryDug(e: Entry, rest: string, s: string, i: nat, stack: seq<Kind>)
      returns (value: nat, next: nat)
    requires EntryOk(e) && ItemOk(e.value) && Diggable(e.value.doc)
    requires StandsAt(WriteEntry(e) + rest, s, i) && rest != "" && rest[0] in {',', ']', '}'}
    ensures i < |s| && s[i] != '}' && DugKey(s, i) == DugKey(s, SkipSpaces(s, i))
    ensures CharAt(s, SkipSpaces(s, i), '"') && DugKey(s, i) == Done(WritePieces(e.key), value)
    ensures next == value + |e.value.before| + |Write(e.value.doc)| <= |s|
    ensures s[value..next] == e.value.before + Write(e.value.doc)
    ensures StopsAt(PassValue(s, value, stack), next)
    ensures SkipSpaces(s, next) == i + |WriteEntry(e)| && CharAt(s, i + |WriteEntry(e)|, rest[0])
    decreases e, 1
  {
    hide StandsAt, WriteEntry, WriteItem, Write, WriteString, WritePieces, SkipSpaces, PiecesOk, DocOk, Diggable;
    hide AllSpaces, PassValue, DugKey, DugString, Stops;
    var at, colon := EntryParts(e, rest, s, i);
    StringDug(e.key, s, at);
    QuoteAhead(s, at);
    NoSpace(s, at);
    SpacesSkipped(e.before, s, i);
    SpacesSkipped(e.gap, s, at + |WriteString(e.key)|);
    KeyFound(s, i, at, WritePieces(e.key), at + |WriteString(e.key)|, colon);
    KeyFound(s, at, at, WritePieces(e.key), at + |WriteString(e.key)|, colon);
    if e.before != "" { SpaceAhead(e.before, s, i); }
    value := colon + 1;
    var start;
    start, next := ItemParts(e.value, rest, s, value);
    DocPasses(e.value.doc, s, start, stack);
    PassSkips(s, value, stack);
    StandsTogether(e.value.before, Write(e.value.doc), s, value);
  }

  lemma {:induction false} StandsTogether(a: string, b: string, s: string, i: nat)
    requires StandsAt(a, s, i) && StandsAt(b, s, i + |a|)
    ensures i + |a| + |b| <= |s| && s[i..i + |a| + |b|] == a + b
  {
    assert s[i..i + |a| + |b|] == s[i..i + |a|] + s[i + |a|..i + |a| + |b|];
  }

  lemma {:induction false} KeyFound(s: string, i: nat, at: nat, key: string, next: nat, colon: nat)
    requires SkipSpaces(s, i) == at && CharAt(s, at, '"') && DugString(s, at) == Done(key, next)
    requires SkipSpaces(s, next) == colon && CharAt(s, colon, ':')
    ensures DugKey(s, i) == Done(key, colon + 1)
  {
    hide StringEnd, SkipSpaces;
    QuoteIsNoSpace(s, at);
  }

  /** What follows an entry. */
  lemma {:induction false} BehindEntry(s: string, i: nat, more: nat, key: Option<string>, stack: seq<Kind>)
    requires SkipSpaces(s, i) == more
    ensures CharAt(s, more, '}') ==> SearchMore(s, i, key, stack) == Over(key, more + 1, Pop(stack))
    ensures CharAt(s, more, ',') ==>
      SearchMore(s, i, key, stack) == SearchEntries(s, SkipSpaces(s, more + 1), key, stack)
  {
    hide SearchEntries, SkipSpaces;
  }

  /** Entries are searched alike from the white space before them. */
  lemma {:induction false} SearchSkips(s: string, i: nat, key: Option<string>, stack: seq<Kind>)
    requires i < |s| && s[i] != '}' && CharAt(s, SkipSpaces(s, i), '"') && DugKey(s, i) == DugKey(s, SkipSpaces(s, i))
    ensures SearchEntries(s, i, key, stack) == SearchEntries(s, SkipSpaces(s, i), key, stack)
  {
    hide SearchEntries, DugKey, PassValue, SearchMore, SkipSpaces;
    SearchStep(s, i, key, stack);
    SearchStep(s, SkipSpaces(s, i), key, stack);
  }

  lemma {:induction false} EntriesPass(entries: seq<Entry>, s: string, i: nat, stack: seq<Kind>)
    requires entries != [] && EntriesOk(entries) && EntriesDiggable(entries)
    requires StandsAt(WriteEntry(entries[0]) + WriteEntries(entries[1..]), s, i)
    ensures RunsTo(SearchEntries(s, i, None, stack), i + |WriteEntry(entries[0])| + |WriteEntries(entries[1..])|)
    ensures SearchEntries(s, i, None, stack) == SearchEntries(s, SkipSpaces(s, i), None, stack)
    decreases entries, 0
  {
    hide SearchEntries, SearchMore, PassValue, DugKey, Write, WriteEntry, WriteEntries, SkipSpaces, StandsAt, AllSpaces;
    hide Diggable, DocOk, PiecesOk, WritePieces;
    var e, rest := entries[0], entries[1..];
    assert EntryOk(e) && ItemOk(e.value) && EntriesOk(rest);
    EntriesEnd(rest);
    EntriesTail(rest);
    var value, next := EntryDug(e, WriteEntries(rest), s, i, stack);
    var after := PassValue(s, value, stack).stack;
    var more := i + |WriteEntry(e)|;
    SearchSkips(s, i, None, stack);
    SearchStep(s, i, None, stack);
    BehindEntry(s, next, more, None, after);
    if rest != [] {
      StandsSplit(WriteEntry(e), WriteEntries(rest), s, i);
      StandsSplit(",", WriteEntry(rest[0]) + WriteEntries(rest[1..]), s, more);
      EntriesPass(rest, s, more + 1, after);
    }
  }

  lemma {:induction false} EntriesTail(entries: seq<Entry>)
    ensures entries == [] ==> WriteEntries(entries) == "}"
    ensures entries != [] ==> WriteEntries(entries) == "," + (WriteEntry(entries[0]) + WriteEntries(entries[1..]))
  {
    hide WriteEntry;
  }

  /** On every diggable text the scan stops where the parser does. */
  lemma {:induction false} ScanStopsWithParser(d: Doc, stack: seq<Kind>)
    requires DocOk(d) && Diggable(d)
    ensures var s := Write(d);
            StopsAt(PassValue(s, 0, stack), |s|) && ValueAt(s, 0) == Done(Meaning(d), |s|)
  {
    hide DocOk, Diggable, Write, PassValue, ValueAt, Meaning;
    StandsWhole(Write(d));
    DocPasses(d, Write(d), 0, stack);
    TextIsRead(d);
  }

  /** What the three exceptions do to the scan: it stops inside the number, fails on the empty object, and
      runs past the end of the array. */
  lemma {:induction false} PlusIsNotPassed(stack: seq<Kind>)
    ensures PassValue("1e+5", 0, stack) == Passed(2, stack)
  {
    var s := "1e+5";
    assert NumberStop(s, 2) == 2;
    assert NumberStop(s, 1) == 2;
    assert NumberStop(s, 0) == 2;
    NoSpace(s, 0);
  }

  lemma {:induction false} BlankObjectFails(stack: seq<Kind>)
    ensures PassValue("{ }", 0, stack) == Bad(JsonError)
  {
    hide SearchEntries, SkipSpaces;
    var s := "{ }";
    NoSpace(s, 0);
    SearchStep(s, 1, None, stack + [Object]);
    assert SkipSpaces(s, 1) == 2 by { SpacesSkipped(" ", s, 1); }
    assert DugKey(s, 1) == Failed(JsonError);
    ObjectOpens(s, 0, None, stack);
  }

  lemma {:induction false} ArrayRunsOn(stack: seq<Kind>)
    ensures PassValue("[1 ],", 0, stack) == Passed(5, stack + [Array])
  {
    hide PassItems, SkipSpaces;
    var s, inner := "[1 ],", stack + [Array];
    NoSpace(s, 0);
    NoSpace(s, 1);
    assert SkipSpaces(s, 2) == 3 by { SpacesSkipped(" ", s, 2); }
    assert NumberStop(s, 2) == 2;
    assert NumberStop(s, 1) == 2;
    PassItemsStep(s, 1, inner);
    PassItemsStep(s, 2, inner);
    PassItemsStep(s, 4, inner);
    PassItemsStep(s, 5, inner);
    assert PassValue(s, 1, inner) == Passed(2, inner);
    assert PassValue(s, 2, inner) == Passed(4, inner);
    assert PassArray(s, 0, stack) == PassItems(s, 1, inner);
  }

  // ---------------------------------------------------------------- looking for keys

  /** The first entry whose key is written so. */
  function FirstEntry(entries: seq<Entry>, key: string): Option<Item> {
    if entries == [] then None
    else if WritePieces(entries[0].key) == key then Some(entries[0].value)
    else FirstEntry(entries[1..], key)
  }

  /** The text of the value is found, with the white space before it; without the key, the search fails. */
  predicate FindsItem(r: Search, item: Option<Item>, s: string) {
    match item
    case None => r == Wrong(DiggerError)
    case Some(v) => r.Found? && r.stop <= |s| && r.start <= r.stop && s[r.start..r.stop] == v.before + Write(v.doc)
  }

  lemma {:induction false} EntriesFind(entries: seq<Entry>, s: string, i: nat, key: string, stack: seq<Kind>)
    requires entries != [] && EntriesOk(entries) && EntriesDiggable(entries)
    requires StandsAt(WriteEntry(entries[0]) + WriteEntries(entries[1..]), s, i)
    ensures FindsItem(SearchEntries(s, i, Some(key), stack), FirstEntry(entries, key), s)
    ensures SearchEntries(s, i, Some(key), stack) == SearchEntries(s, SkipSpaces(s, i), Some(key), stack)
    decreases entries, 0
  {
    hide SearchEntries, SearchMore, PassValue, DugKey, Write, WriteEntry, WriteEntries, SkipSpaces, StandsAt, AllSpaces;
    hide Diggable, DocOk, PiecesOk, WritePieces;
    var e, rest := entries[0], entries[1..];
    assert EntryOk(e) && ItemOk(e.value) && EntriesOk(rest);
    EntriesEnd(rest);
    EntriesTail(rest);
    var value, next := EntryDug(e, WriteEntries(rest), s, i, stack);
    var after := PassValue(s, value, stack).stack;
    var more := i + |WriteEntry(e)|;
    SearchSkips(s, i, Some(key), stack);
    SearchStep(s, i, Some(key), stack);
    BehindEntry(s, next, more, Some(key), after);
    if rest != [] {
      StandsSplit(WriteEntry(e), WriteEntries(rest), s, i);
      StandsSplit(",", WriteEntry(rest[0]) + WriteEntries(rest[1..]), s, more);
      EntriesFind(rest, s, more + 1, key, after);
    }
  }

  lemma {:induction false} DocFinds(d: Doc, key: string)
    requires DocOk(d) && Diggable(d)
    ensures var r := SearchObject(Write(d), 0, Some(key), []);
            if d.Map? then FindsItem(r, FirstEntry(d.entries, key), Write(d)) else r == Wrong(JsonError)
  {
    hide *;
    var s := Write(d);
    StandsWhole(s);
    DocStarts(d, s, 0);
    NoSpace(s, 0);
    if d.Map? {
      MapParts(d);
      MapOpens(d, s, 0);
      ObjectOpens(s, 0, Some(key), []);
      if d.entries == [] {
        EmptyObject(s, 1, Some(key), []);
        NothingFound(key, s);
      } else {
        var stack := [] + [Object];
        EntriesFind(d.entries, s, 1, key, stack);
      }
    } else {
      NoMapStarts(d);
      NoObjectOpens(s, key);
    }
  }

  lemma {:induction false} NothingFound(key: string, s: string)
    ensures FindsItem(Wrong(DiggerError), FirstEntry([], key), s)
  {
  }

  lemma {:induction false} NoMapStarts(d: Doc)
    requires DocOk(d) && !d.Map?
    ensures Write(d) != "" && Write(d)[0] != '{'
  {
    hide WriteItem, WriteItems, WriteFraction, WriteExponent, ItemsOk;
    if d.Number? {
      assert IsDigit(d.whole[0]);
      assert Write(d)[0] == if d.negative then '-' else d.whole[0];
    }
  }

  // ---------------------------------------------------------------- stripping

  /** A text does not end in a blank. */
  predicate EndsWell(s: string) {
    s != "" && !Blanks.IsBlank(s[|s| - 1])
  }

  lemma {:induction false} TailEndsWell(a: string, b: string)
    requires EndsWell(b) || (b == "" && EndsWell(a))
    ensures EndsWell(a + b)
  {
    if b == "" { assert a + b == a; } else { assert (a + b)[|a + b| - 1] == b[|b| - 1]; }
  }

  lemma {:induction false} DigitsEndWell(s: string)
    requires AllDigits(s) && s != ""
    ensures EndsWell(s)
  {
    assert IsDigit(s[|s| - 1]);
  }

  lemma {:induction false} NumberEndsWell(d: Doc)
    requires d.Number? && NumberOk(d)
    ensures EndsWell(WriteNumber(d))
  {
    hide EndsWell;
    var sign := if d.negative then "-" else "";
    var fraction, exponent := WriteFraction(d.fraction), WriteExponent(d.exponent);
    DigitsEndWell(d.whole);
    if d.fraction.Some? {
      assert EndsWell(".") by { PointEndsWell(); }
      if d.fraction.value != "" { DigitsEndWell(d.fraction.value); }
      TailEndsWell(".", d.fraction.value);
    }
    if d.exponent.Some? { ExponentEndsWell(d.exponent.value); }
    hide WriteFraction, WriteExponent;
    assert fraction == "" || EndsWell(fraction);
    assert exponent == "" || EndsWell(exponent);
    if fraction + exponent != "" {
      if exponent == "" { assert fraction + exponent == fraction; } else { TailEndsWell(fraction, exponent); }
    }
    TailEndsWell(d.whole, fraction + exponent);
    TailEndsWell(sign, d.whole + (fraction + exponent));
  }

  lemma {:induction false} PointEndsWell()
    ensures EndsWell(".") && EndsWell("+") && EndsWell("-") && EndsWell("e") && EndsWell("E")
  {
  }

  lemma {:induction false} ExponentEndsWell(x: Exponent)
    requires (x.letter == 'e' || x.letter == 'E') && x.sign in {"", "+", "-"} && AllDigits(x.digits)
    ensures EndsWell([x.letter] + (x.sign + x.digits))
  {
    hide EndsWell;
    PointEndsWell();
    if x.digits != "" {
      DigitsEndWell(x.digits);
      TailEndsWell(x.sign, x.digits);
    } else {
      assert x.sign + x.digits == x.sign;
    }
    TailEndsWell([x.letter], x.sign + x.digits);
  }

  lemma {:induction false} ItemsEndWell(items: seq<Item>)
    ensures WriteItems(items) != "" && WriteItems(items)[|WriteItems(items)| - 1] == ']'
    decreases |items|
  {
    hide WriteItem;
    if items != [] { ItemsEndWell(items[1..]); }
  }

  lemma {:induction false} EntriesEndWell(entries: seq<Entry>)
    ensures WriteEntries(entries) != "" && WriteEntries(entries)[|WriteEntries(entries)| - 1] == '}'
    decreases |entries|
  {
    hide WriteEntry;
    if entries != [] { EntriesEndWell(entries[1..]); }
  }

  lemma {:induction false} DocEndsWell(d: Doc)
    requires DocOk(d)
    ensures EndsWell(Write(d))
  {
    hide WriteItem, WriteItems, WriteEntry, WriteEntries, WriteNumber, WritePieces, PiecesOk, NumberOk;
    match d
    case Nothing =>
    case Truth(b) =>
    case Number(_, _, _, _) => NumberEndsWell(d);
    case Text(_) =>
    case List(_, items) =>
      if items != [] { ItemsEndWell(items[1..]); }
    case Map(_, entries) =>
      if entries != [] { EntriesEndWell(entries[1..]); }
  }

  lemma {:induction false} ItemStripped(item: Item)
    requires ItemOk(item)
    ensures Blanks.Strip(item.before + Write(item.doc)) == Write(item.doc)
  {
    hide Write, DocOk;
    var text := Write(item.doc);
    DocEndsWell(item.doc);
    StandsWhole(text);
    DocStarts(item.doc, text, 0);
    FirstIsNoBlank(item.doc);
    Blanks.LStripSpaces(item.before, text);
    Blanks.RStripSpaces(text, "");
    assert text + "" == text;
  }

  lemma {:induction false} FirstIsNoBlank(d: Doc)
    requires DocOk(d)
    ensures Write(d) != "" && !Blanks.IsBlank(Write(d)[0])
  {
    hide WriteItem, WriteItems, WriteEntry, WriteEntries, WriteFraction, WriteExponent, ItemsOk, EntriesOk;
    if d.Number? {
      assert IsDigit(d.whole[0]);
      assert Write(d)[0] == if d.negative then '-' else d.whole[0];
    }
  }

  // ---------------------------------------------------------------- whole paths

  datatype Followed = Reaches(d: Doc) | Misses(error: Error)

  /** Following keys, as they are written, each time to the first entry with the key. */
  function Follow(d: Doc, keys: seq<string>): Followed
    decreases |keys|
  {
    if keys == [] then Reaches(d)
    else if !d.Map? then Misses(JsonError)
    else
      var item := FirstEntry(d.entries, keys[0]);
      if item.None? then Misses(DiggerError) else Follow(item.value.doc, keys[1..])
  }

  lemma {:induction false} FirstEntryOk(entries: seq<Entry>, key: string)
    requires EntriesOk(entries) && EntriesDiggable(entries) && FirstEntry(entries, key).Some?
    ensures ItemOk(FirstEntry(entries, key).value) && Diggable(FirstEntry(entries, key).value.doc)
  {
    hide WritePieces, DocOk, Diggable, AllSpaces, PiecesOk;
    assert EntryOk(entries[0]) && ItemOk(entries[0].value);
    if WritePieces(entries[0].key) != key { FirstEntryOk(entries[1..], key); }
  }

  /** Digging in a diggable text, with white space, escapes and repeated keys as they come, gives the text
      of the value that following the keys reaches, and parsing it what it says; a missing key raises
      DiggerError, and a value on the path that is no object a JSONError. */
  lemma {:induction false} DiggingFollows(d: Doc, keys: seq<string>)
    requires DocOk(d) && Diggable(d)
    ensures var f, dug := Follow(d, keys), DigKeys(Write(d), keys);
            if f.Misses? then dug == Missed(f.error)
            else DocOk(f.d) && dug == Dug(Write(f.d)) && ValueAt(dug.json, 0) == Done(Meaning(f.d), |dug.json|)
    decreases |keys|
  {
    hide Write, SearchObject, ValueAt, FirstEntry, DocOk, Diggable, Blanks.Strip, Meaning;
    if keys == [] {
      TextIsRead(d);
    } else {
      DocFinds(d, keys[0]);
      if d.Map? {
        MapParts(d);
        var item := FirstEntry(d.entries, keys[0]);
        if item.Some? {
          FirstEntryOk(d.entries, keys[0]);
          assert DocOk(item.value.doc) by { ItemDoc(item.value); }
          var r := SearchObject(Write(d), 0, Some(keys[0]), []);
          assert Slice(Write(d), r.start, r.stop) == item.value.before + Write(item.value.doc);
          ItemStripped(item.value);
          DiggingFollows(item.value.doc, keys[1..]);
        }
      }
    }
  }

  lemma {:induction false} ItemDoc(item: Item)
    requires ItemOk(item)
    ensures DocOk(item.doc)
  {
    hide DocOk;
  }
}
