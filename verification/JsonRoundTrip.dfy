/** Parsing what was generated. */
module JsonRoundTrip {
  import opened Options
  import opened Hashes
  import opened Decimal
  import opened JsonText
  import opened JsonParser

  /** Nothing, or a character that ends a value. */
  predicate Ends(s: string, i: nat) {
    i == |s| || (i < |s| && s[i] in {',', ']', '}'})
  }

  lemma {:induction false} NoSpace(s: string, i: nat)
    requires i < |s| && !IsSpace(s[i])
    ensures SkipSpaces(s, i) == i
  {
  }

  // ---------------------------------------------------------------- numbers

  lemma {:induction false} NaturalStands(n: nat, s: string, i: nat)
    requires StandsAt(Digits(n), s, i) && Ends(s, i + |Digits(n)|)
    ensures DigitsEnd(s, i) == i + |Digits(n)| && s[i..i + |Digits(n)|] == Digits(n) && DigitsValue(Digits(n)) == n
    ensures FractionEnd(s, i + |Digits(n)|) == ExponentEnd(s, i + |Digits(n)|) == i + |Digits(n)|
  {
    DigitsEndAt(s, i, i + |Digits(n)|);
    DigitsRead(n);
  }

  lemma {:induction false} NumberStands(n: int, s: string, i: nat)
    requires StandsAt(IntText(n), s, i) && Ends(s, i + |IntText(n)|)
    ensures i < |s| && NumberAt(s, i) == Done(Int(n), i + |IntText(n)|) && (s[i] == '-' || IsDigit(s[i]))
  {
    hide Digits, DigitsValue, DigitsEnd, FractionEnd, ExponentEnd, NumberAt, StandsAt, Ends;
    StandsHead(IntText(n), s, i);
    if n < 0 {
      StandsSplit("-", Digits(-n), s, i);
      NaturalStands(-n, s, i + 1);
      NumberIs(s, i, i + |IntText(n)|);
    } else {
      assert IsDigit(Digits(n)[0]);
      NaturalStands(n, s, i);
      NumberIs(s, i, i + |IntText(n)|);
    }
  }

  lemma {:induction false} NumberIs(s: string, i: nat, end: nat)
    requires i < |s| && DigitsEnd(s, if s[i] == '-' then i + 1 else i) == end
    requires FractionEnd(s, end) == ExponentEnd(s, end) == end
    ensures NumberAt(s, i) == Done(Int(Signed(s[i] == '-', DigitsValue(s[if s[i] == '-' then i + 1 else i..end]))), end)
  {
    hide DigitsValue, DigitsEnd, FractionEnd, ExponentEnd;
  }

  // ---------------------------------------------------------------- strings

  lemma {:induction false} PlainUnescaped(raw: string)
    requires '\\' !in raw
    ensures Unescaped(raw) == Some(raw)
  {
    if raw != "" {
      assert raw[0] in raw && '\\' !in raw[1..];
      PlainUnescaped(raw[1..]);
      assert raw == [raw[0]] + raw[1..];
    }
  }

  lemma {:induction false} TextStands(text: string, s: string, i: nat)
    requires Plain(text) && StandsAt(GenerateString(text), s, i)
    ensures CharAt(s, i, '"') && StringAt(s, i) == Done(text, i + |GenerateString(text)|)
  {
    hide Unescaped, StringEnd, GenerateString;
    StringStands(text, s, i);
    PlainUnescaped(text);
  }

  // ---------------------------------------------------------------- values

  predicate Good(v: Value) {
    Clean(v) && Distinct(v) && NoFloats(v)
  }

  predicate GoodItems(items: seq<Value>) {
    ItemsClean(items) && ItemsDistinct(items) && ItemsNoFloats(items)
  }

  predicate GoodEntries(entries: seq<Field>) {
    EntriesClean(entries) && EntriesDistinct(entries) && EntriesNoFloats(entries)
  }

  lemma {:induction false} ValueStands(v: Value, s: string, i: nat)
    requires Good(v) && StandsAt(Generate(v), s, i) && Ends(s, i + |Generate(v)|)
    ensures ValueAt(s, i) == Done(v, i + |Generate(v)|)
    decreases v, 1
  {
    hide ItemsAt, EntriesAt, GenerateItems, GenerateEntries, NumberAt, StringAt, GenerateString, GenerateEntry, IntText;
    hide SkipSpaces;
    var g := Generate(v);
    GenerateNotEmpty(v);
    StandsHead(g, s, i);
    match v
    case Null => WordHead(s, i, g);
    case Bool(b) => WordHead(s, i, g);
    case Int(n) => NumberStands(n, s, i);
    case Str(text) => TextStands(text, s, i);
    case Arr(items) => ArrayStands(v, s, i);
    case Obj(entries) => ObjectStands(v, s, i);
  }

  lemma {:induction false} GenerateNotEmpty(v: Value)
    requires NoFloats(v)
    ensures Generate(v) != ""
  {
    FirstChar(v);
  }

  lemma {:induction false} WordHead(s: string, i: nat, word: string)
    requires word in {"null", "true", "false"} && StandsAt(word, s, i)
    ensures i < |s| && s[i] == word[0] && !IsDigit(word[0])
    ensures word == "null" ==> ValueAt(s, i) == Done(Null, i + 4)
    ensures word == "true" ==> ValueAt(s, i) == Done(Bool(true), i + 4)
    ensures word == "false" ==> ValueAt(s, i) == Done(Bool(false), i + 5)
  {
    StandsHead(word, s, i);
  }

  lemma {:induction false} BracketStands(open: char, close: char, s: string, i: nat)
    requires StandsAt([open, close], s, i) && !IsSpace(close)
    ensures s[i] == open && CharAt(s, i + 1, close) && SkipSpaces(s, i + 1) == i + 1
  {
    assert s[i] == s[i..i + 2][0] && s[i + 1] == s[i..i + 2][1];
  }

  lemma {:induction false} ArrayStands(v: Value, s: string, i: nat)
    requires v.Arr? && Good(v) && StandsAt(Generate(v), s, i)
    ensures ValueAt(s, i) == Done(v, i + |Generate(v)|)
    decreases v, 0
  {
    hide ItemsAt, EntriesAt, GenerateItems, SkipSpaces, NoFloats, Clean, Distinct;
    if v.items == [] {
      BracketStands('[', ']', s, i);
    } else {
      var inner := Generate(v.items[0]) + GenerateItems(v.items[1..]);
      assert Generate(v) == "[" + inner;
      StandsSplit("[", inner, s, i);
      StandsHead("[", s, i);
      GoodArray(v);
      GoodFirst(v.items);
      FirstStands(v.items[0], GenerateItems(v.items[1..]), s, i + 1);
      ItemsStand(v.items, s, i + 1, []);
      assert [] + v.items == v.items;
    }
  }

  lemma {:induction false} GoodArray(v: Value)
    requires v.Arr? && Good(v)
    ensures GoodItems(v.items)
  {
  }

  lemma {:induction false} GoodFirst(items: seq<Value>)
    requires GoodItems(items) && items != []
    ensures Good(items[0]) && GoodItems(items[1..])
  {
  }

  /** A value is not taken for white space or for an empty container. */
  lemma {:induction false} FirstStands(v: Value, rest: string, s: string, i: nat)
    requires Good(v) && StandsAt(Generate(v) + rest, s, i)
    ensures i < |s| && SkipSpaces(s, i) == i && s[i] !in {']', '}'}
  {
    FirstChar(v);
    StandsHead(Generate(v) + rest, s, i);
  }

  lemma {:induction false} ItemsStep(s: string, i: nat, before: seq<Value>, v: Value, next: nat)
    requires ValueAt(s, i) == Done(v, next) && SkipSpaces(s, next) == next
    ensures CharAt(s, next, ']') ==> ItemsAt(s, i, before) == Done(Arr(before + [v]), next + 1)
    ensures CharAt(s, next, ',') ==> ItemsAt(s, i, before) == ItemsAt(s, SkipSpaces(s, next + 1), before + [v])
  {
    hide ValueAt, SkipSpaces;
  }

  /** What is generated behind an item. */
  lemma {:induction false} MoreItems(items: seq<Value>, s: string, i: nat)
    requires StandsAt(GenerateItems(items), s, i)
    ensures items == [] ==> CharAt(s, i, ']') && |GenerateItems(items)| == 1
    ensures items != [] ==>
      var tail := Generate(items[0]) + GenerateItems(items[1..]);
      CharAt(s, i, ',') && StandsAt(tail, s, i + 1) && |GenerateItems(items)| == 1 + |tail|
    ensures SkipSpaces(s, i) == i && Ends(s, i)
  {
    hide Generate, SkipSpaces;
    StandsHead(GenerateItems(items), s, i);
    NoSpace(s, i);
    if items != [] { StandsSplit(",", Generate(items[0]) + GenerateItems(items[1..]), s, i); }
  }

  lemma {:induction false} ItemsStand(items: seq<Value>, s: string, i: nat, before: seq<Value>)
    requires items != [] && GoodItems(items) && StandsAt(Generate(items[0]) + GenerateItems(items[1..]), s, i)
    ensures ItemsAt(s, i, before) == Done(Arr(before + items), i + |Generate(items[0])| + |GenerateItems(items[1..])|)
    decreases items, 0
  {
    hide *;
    var rest := items[1..];
    var next := i + |Generate(items[0])|;
    GoodFirst(items);
    StandsSplit(Generate(items[0]), GenerateItems(rest), s, i);
    MoreItems(rest, s, next);
    ValueStands(items[0], s, i);
    ItemsStep(s, i, before, items[0], next);
    if rest == [] {
      assert before + items == before + [items[0]];
    } else {
      GoodFirst(rest);
      FirstStands(rest[0], GenerateItems(rest[1..]), s, next + 1);
      ItemsStand(rest, s, next + 1, before + [items[0]]);
      assert before + items == before + [items[0]] + rest;
    }
  }

  /** No key of the one list is in the other. */
  predicate KeysApart(a: seq<Field>, b: seq<Field>) {
    forall k :: 0 <= k < |b| ==> KeyAbsent(a, b[k].key)
  }

  lemma {:induction false} ObjectStands(v: Value, s: string, i: nat)
    requires v.Obj? && Good(v) && StandsAt(Generate(v), s, i)
    ensures ValueAt(s, i) == Done(v, i + |Generate(v)|)
    decreases v, 0
  {
    hide ItemsAt, EntriesAt, GenerateEntries, GenerateEntry, SkipSpaces, NoFloats, Clean, Distinct;
    if v.entries == [] {
      BracketStands('{', '}', s, i);
    } else {
      var inner := GenerateEntry(v.entries[0]) + GenerateEntries(v.entries[1..]);
      assert Generate(v) == "{" + inner;
      StandsSplit("{", inner, s, i);
      StandsHead("{", s, i);
      GoodObject(v);
      GoodFirstEntry(v.entries);
      EntryStarts(v.entries[0], GenerateEntries(v.entries[1..]), s, i + 1);
      NoSpace(s, i + 1);
      EntriesStand(v.entries, s, i + 1, []);
      assert [] + v.entries == v.entries;
    }
  }

  lemma {:induction false} GoodObject(v: Value)
    requires v.Obj? && Good(v)
    ensures GoodEntries(v.entries)
  {
  }

  lemma {:induction false} GoodFirstEntry(entries: seq<Field>)
    requires GoodEntries(entries) && entries != []
    ensures Plain(entries[0].key) && Good(entries[0].value) && GoodEntries(entries[1..])
    ensures KeysApart([entries[0]], entries[1..])
  {
  }

  lemma {:induction false} EntryStarts(f: Field, rest: string, s: string, i: nat)
    requires StandsAt(GenerateEntry(f) + rest, s, i)
    ensures CharAt(s, i, '"')
  {
    StandsHead(GenerateEntry(f) + rest, s, i);
  }

  lemma {:induction false} EntryStands(f: Field, s: string, i: nat)
    requires Plain(f.key) && Good(f.value) && StandsAt(GenerateEntry(f), s, i) && Ends(s, i + |GenerateEntry(f)|)
    ensures EntryAt(s, i) == Done(f, i + |GenerateEntry(f)|)
    decreases f, 0
  {
    hide ValueAt, Good, StringAt, GenerateString, SkipSpaces, Generate;
    var colon := i + |GenerateString(f.key)|;
    StandsSplit(GenerateString(f.key), ":" + Generate(f.value), s, i);
    StandsSplit(":", Generate(f.value), s, colon);
    StandsHead(":", s, colon);
    TextStands(f.key, s, i);
    NoSpace(s, colon);
    assert Generate(f.value) + "" == Generate(f.value);
    FirstStands(f.value, "", s, colon + 1);
    ValueStands(f.value, s, colon + 1);
  }

  lemma {:induction false} EntriesStep(s: string, i: nat, before: seq<Field>, f: Field, next: nat)
    requires EntryAt(s, i) == Done(f, next) && SkipSpaces(s, next) == next && KeyAbsent(before, f.key)
    ensures CharAt(s, next, '}') ==> EntriesAt(s, i, before) == Done(Obj(before + [f]), next + 1)
    ensures CharAt(s, next, ',') ==> EntriesAt(s, i, before) == EntriesAt(s, SkipSpaces(s, next + 1), before + [f])
  {
    hide EntryAt, SkipSpaces, Put;
    PutNew(before, f.key, f.value);
    assert Field(f.key, f.value) == f;
  }

  /** What is generated behind an entry. */
  lemma {:induction false} MoreEntries(entries: seq<Field>, s: string, i: nat)
    requires StandsAt(GenerateEntries(entries), s, i)
    ensures entries == [] ==> CharAt(s, i, '}') && |GenerateEntries(entries)| == 1
    ensures entries != [] ==>
      var tail := GenerateEntry(entries[0]) + GenerateEntries(entries[1..]);
      CharAt(s, i, ',') && StandsAt(tail, s, i + 1) && |GenerateEntries(entries)| == 1 + |tail|
    ensures SkipSpaces(s, i) == i && Ends(s, i)
  {
    hide GenerateEntry, SkipSpaces;
    StandsHead(GenerateEntries(entries), s, i);
    NoSpace(s, i);
    if entries != [] { StandsSplit(",", GenerateEntry(entries[0]) + GenerateEntries(entries[1..]), s, i); }
  }

  lemma {:induction false} EntriesStand(entries: seq<Field>, s: string, i: nat, before: seq<Field>)
    requires entries != [] && GoodEntries(entries) && KeysApart(before, entries)
    requires StandsAt(GenerateEntry(entries[0]) + GenerateEntries(entries[1..]), s, i)
    ensures EntriesAt(s, i, before)
            == Done(Obj(before + entries), i + |GenerateEntry(entries[0])| + |GenerateEntries(entries[1..])|)
    decreases entries, 0
  {
    hide *;
    var f, rest := entries[0], entries[1..];
    var next := i + |GenerateEntry(f)|;
    GoodFirstEntry(entries);
    StandsSplit(GenerateEntry(f), GenerateEntries(rest), s, i);
    MoreEntries(rest, s, next);
    EntryStands(f, s, i);
    FirstApart(before, entries);
    EntriesStep(s, i, before, f, next);
    if rest == [] {
      assert before + entries == before + [f];
    } else {
      EntryStarts(rest[0], GenerateEntries(rest[1..]), s, next + 1);
      QuoteIsNoSpace(s, next + 1);
      StillApart(before, entries);
      EntriesStand(rest, s, next + 1, before + [f]);
      assert before + entries == before + [f] + rest;
    }
  }

  lemma {:induction false} QuoteIsNoSpace(s: string, i: nat)
    requires CharAt(s, i, '"')
    ensures SkipSpaces(s, i) == i
  {
  }

  lemma {:induction false} FirstApart(before: seq<Field>, entries: seq<Field>)
    requires entries != [] && KeysApart(before, entries)
    ensures KeyAbsent(before, entries[0].key)
  {
  }

  lemma {:induction false} StillApart(before: seq<Field>, entries: seq<Field>)
    requires entries != [] && KeysApart(before, entries) && KeysApart([entries[0]], entries[1..])
    ensures KeysApart(before + [entries[0]], entries[1..])
  {
    forall k | 0 <= k < |entries[1..]| ensures KeyAbsent(before + [entries[0]], entries[1..][k].key) {
      assert KeyAbsent(before, entries[k + 1].key) && KeyAbsent([entries[0]], entries[1..][k].key);
      assert [entries[0]][0] == entries[0];
    }
  }

  // ---------------------------------------------------------------- what cannot come back

  predicate NoBackslash(s: string) {
    '\\' !in s
  }

  lemma {:induction false} NoBackslashBoth(a: string, b: string)
    requires NoBackslash(a) && NoBackslash(b)
    ensures NoBackslash(a + b)
  {
  }

  lemma {:induction false} TranslatedNoBackslash(s: string)
    ensures NoBackslash(Translated(s))
  {
    if s != "" {
      TranslatedNoBackslash(s[1..]);
      NoBackslashBoth([if s[0] == '\\' then '"' else s[0]], Translated(s[1..]));
    }
  }

  lemma {:induction false} StringNoBackslash(s: string)
    ensures NoBackslash(GenerateString(s))
  {
    hide Translated;
    TranslatedNoBackslash(s);
  }

  lemma {:induction false} DigitsNoBackslash(i: int)
    ensures NoBackslash(IntText(i))
  {
    hide Digits;
    var text := IntText(i);
    assert AllDigits(if i < 0 then text[1..] else text);
    forall k | 0 <= k < |text| ensures text[k] != '\\' {
      if i < 0 && 0 < k { assert IsDigit(text[1..][k - 1]); }
      if i >= 0 { assert IsDigit(text[k]); }
    }
  }

  /** The generator never writes a backslash. */
  lemma {:induction false} GeneratedNoBackslash(v: Value)
    requires NoFloats(v)
    ensures NoBackslash(Generate(v))
    decreases v, 1
  {
    hide IntText, GenerateString, GenerateItems, GenerateEntry, GenerateEntries, NoBackslash;
    match v
    case Null => LiteralsNoBackslash();
    case Bool(_) => LiteralsNoBackslash();
    case Int(i) => DigitsNoBackslash(i);
    case Str(text) => StringNoBackslash(text);
    case Arr(items) =>
      LiteralsNoBackslash();
      if items != [] {
        GeneratedNoBackslash(items[0]);
        ItemsNoBackslash(items[1..]);
        NoBackslashBoth(Generate(items[0]), GenerateItems(items[1..]));
        NoBackslashBoth("[", Generate(items[0]) + GenerateItems(items[1..]));
      }
    case Obj(entries) =>
      LiteralsNoBackslash();
      if entries != [] {
        EntryNoBackslash(entries[0]);
        EntriesNoBackslash(entries[1..]);
        NoBackslashBoth(GenerateEntry(entries[0]), GenerateEntries(entries[1..]));
        NoBackslashBoth("{", GenerateEntry(entries[0]) + GenerateEntries(entries[1..]));
      }
  }

  lemma {:induction false} LiteralsNoBackslash()
    ensures NoBackslash("null") && NoBackslash("true") && NoBackslash("false") && NoBackslash("[]") && NoBackslash("{}")
    ensures NoBackslash("[") && NoBackslash("]") && NoBackslash("{") && NoBackslash("}")
    ensures NoBackslash(",") && NoBackslash(":")
  {
  }

  lemma {:induction false} ItemsNoBackslash(items: seq<Value>)
    requires ItemsNoFloats(items)
    ensures NoBackslash(GenerateItems(items))
    decreases items, 0
  {
    hide NoBackslash, Generate;
    LiteralsNoBackslash();
    if items != [] {
      GeneratedNoBackslash(items[0]);
      ItemsNoBackslash(items[1..]);
      NoBackslashBoth(Generate(items[0]), GenerateItems(items[1..]));
      NoBackslashBoth(",", Generate(items[0]) + GenerateItems(items[1..]));
    }
  }

  lemma {:induction false} EntryNoBackslash(f: Field)
    requires NoFloats(f.value)
    ensures NoBackslash(GenerateEntry(f))
    decreases f, 0
  {
    hide NoBackslash, Generate, GenerateString;
    LiteralsNoBackslash();
    StringNoBackslash(f.key);
    GeneratedNoBackslash(f.value);
    NoBackslashBoth(":", Generate(f.value));
    NoBackslashBoth(GenerateString(f.key), ":" + Generate(f.value));
  }

  lemma {:induction false} EntriesNoBackslash(entries: seq<Field>)
    requires EntriesNoFloats(entries)
    ensures NoBackslash(GenerateEntries(entries))
    decreases entries, 0
  {
    hide NoBackslash, GenerateEntry;
    LiteralsNoBackslash();
    if entries != [] {
      EntryNoBackslash(entries[0]);
      EntriesNoBackslash(entries[1..]);
      NoBackslashBoth(GenerateEntry(entries[0]), GenerateEntries(entries[1..]));
      NoBackslashBoth(",", GenerateEntry(entries[0]) + GenerateEntries(entries[1..]));
    }
  }

  lemma {:induction false} FirstQuote(s: string, i: nat)
    requires NoBackslash(s) && StringEnd(s, i) < |s|
    ensures '"' !in s[i..StringEnd(s, i)]
    decreases |s| - i
  {
    assert s[i] in s;
    if s[i] != '"' {
      FirstQuote(s, i + 1);
      var j := StringEnd(s, i);
      assert s[i..j] == [s[i]] + s[i + 1..j];
    }
  }

  lemma {:induction false} TextIsPlain(s: string, i: nat)
    requires NoBackslash(s) && StringAt(s, i).Done?
    ensures Plain(StringAt(s, i).value)
  {
    hide Unescaped, StringEnd;
    var end := StringEnd(s, i + 1);
    FirstQuote(s, i + 1);
    assert forall k :: i + 1 <= k < end ==> s[k] in s;
    PlainUnescaped(s[i + 1..end]);
  }

  lemma {:induction false} PutClean(entries: seq<Field>, key: string, value: Value)
    requires EntriesClean(entries) && Plain(key) && Clean(value)
    ensures EntriesClean(Put(entries, key, value))
  {
    hide Plain, Clean;
    if entries == [] {
      assert [Field(key, value)][1..] == [];
    } else if entries[0].key == key {
      assert Put(entries, key, value)[1..] == entries[1..];
    } else {
      PutClean(entries[1..], key, value);
      assert Put(entries, key, value)[1..] == Put(entries[1..], key, value);
    }
  }

  lemma {:induction false} ItemsCleanBoth(items: seq<Value>, v: Value)
    requires ItemsClean(items) && Clean(v)
    ensures ItemsClean(items + [v])
  {
    hide Clean;
    if items == [] {
      assert items + [v] == [v] && [v][1..] == [];
    } else {
      ItemsCleanBoth(items[1..], v);
      assert (items + [v])[1..] == items[1..] + [v];
    }
  }

  lemma {:induction false} NumberIsClean(s: string, i: nat)
    requires i < |s|
    ensures Clean(NumberAt(s, i).value)
  {
    hide DigitsEnd, FractionEnd, ExponentEnd, DigitsValue;
  }

  /** Without a backslash in the text, no string that is read contains a quote or a backslash. */
  lemma {:induction false} ParsedIsClean(s: string, i: nat)
    requires NoBackslash(s) && ValueAt(s, i).Done?
    ensures Clean(ValueAt(s, i).value)
    decreases |s| - i, 0
  {
    hide EntriesAt, ItemsAt, StringAt, NumberAt, StandsAt, NoBackslash, Plain, SkipSpaces;
    var c := s[i];
    var j := SkipSpaces(s, i + 1);
    if c == '{' {
      if !CharAt(s, j, '}') { EntriesReadClean(s, j, []); }
    } else if c == '[' {
      if !CharAt(s, j, ']') { ItemsReadClean(s, j, []); }
    } else if c == '"' {
      TextIsPlain(s, i);
    } else if c == '-' || IsDigit(c) {
      NumberIsClean(s, i);
    }
  }

  lemma {:induction false} EntryIsClean(s: string, i: nat)
    requires NoBackslash(s) && EntryAt(s, i).Done?
    ensures Plain(EntryAt(s, i).value.key) && Clean(EntryAt(s, i).value.value)
    decreases |s| - i, 1
  {
    hide StringAt, ValueAt, NoBackslash, Plain, Clean;
    TextIsPlain(s, i);
    var colon := SkipSpaces(s, StringAt(s, i).next);
    ParsedIsClean(s, SkipSpaces(s, colon + 1));
  }

  lemma {:induction false} EntriesReadClean(s: string, i: nat, entries: seq<Field>)
    requires NoBackslash(s) && EntriesClean(entries) && EntriesAt(s, i, entries).Done?
    ensures Clean(EntriesAt(s, i, entries).value)
    decreases |s| - i, 2
  {
    hide EntryAt, Put, NoBackslash, Plain;
    EntryIsClean(s, i);
    var e := EntryAt(s, i);
    var more, all := SkipSpaces(s, e.next), Put(entries, e.value.key, e.value.value);
    PutClean(entries, e.value.key, e.value.value);
    if !CharAt(s, more, '}') { EntriesReadClean(s, SkipSpaces(s, more + 1), all); }
  }

  lemma {:induction false} ItemsReadClean(s: string, i: nat, items: seq<Value>)
    requires NoBackslash(s) && ItemsClean(items) && ItemsAt(s, i, items).Done?
    ensures Clean(ItemsAt(s, i, items).value)
    decreases |s| - i, 1
  {
    hide ValueAt, NoBackslash;
    ParsedIsClean(s, i);
    var v := ValueAt(s, i);
    var more := SkipSpaces(s, v.next);
    ItemsCleanBoth(items, v.value);
    if !CharAt(s, more, ']') { ItemsReadClean(s, SkipSpaces(s, more + 1), items + [v.value]); }
  }

  /** The same for any value as it is interpolated into its surroundings. */
  lemma {:induction false} TextRoundTrip(v: Value)
    requires NoFloats(v) && Distinct(v)
    ensures ValueAt(Generate(v), 0) == Done(v, |Generate(v)|) <==> Clean(v)
    ensures ValueAt(Generate(v), 0).Done? ==> Clean(ValueAt(Generate(v), 0).value)
  {
    hide Generate, ValueAt, Clean, NoFloats, Distinct, NoBackslash;
    var text := Generate(v);
    GeneratedNoBackslash(v);
    if ValueAt(text, 0).Done? { ParsedIsClean(text, 0); }
    if Clean(v) {
      assert text[0..0 + |text|] == text;
      ValueStands(v, text, 0);
    }
  }

  /** A document without floats comes back from its generated text if and only if none of its strings
      and keys contains a quote or a backslash: the generator writes a quote for both. A boolean is no
      document, since the generator then returns the boolean and not a text. */
  lemma {:induction false} RoundTrip(v: Value)
    requires !v.Bool? && NoFloats(v) && Distinct(v)
    ensures ValueAt(Generate(v), 0) == Done(v, |Generate(v)|) <==> Clean(v)
    ensures ValueAt(Generate(v), 0).Done? ==> Clean(ValueAt(Generate(v), 0).value)
  {
    hide Generate, ValueAt, Clean, NoFloats, Distinct;
    TextRoundTrip(v);
  }
}
