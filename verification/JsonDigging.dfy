/** Digging in a generated document finds what walking the parsed document finds. */
module JsonDigging {
  import opened Options
  import opened Hashes
  import opened Decimal
  import opened JsonText
  import opened JsonParser
  import opened JsonRoundTrip
  import opened JsonDigger
  import Blanks

  /** The scan passes and stops at an index. */
  predicate StopsAt(r: Scan, index: nat) {
    r.Passed? && r.index == index
  }

  predicate RunsTo(r: Search, index: nat) {
    r.Ran? && r.index == index
  }

  lemma {:induction false} NumberStops(part: string, s: string, i: nat)
    requires StandsAt(part, s, i) && (forall k :: 0 <= k < |part| ==> NumberChar(part[k])) && Ends(s, i + |part|)
    ensures NumberStop(s, i) == i + |part|
    decreases |part|
  {
    if part != "" {
      StandsHead(part, s, i);
      assert s[i + 1..i + |part|] == part[1..];
      assert forall k :: 0 <= k < |part[1..]| ==> part[1..][k] == part[k + 1];
      NumberStops(part[1..], s, i + 1);
    }
  }

  lemma {:induction false} IntStops(n: int, s: string, i: nat)
    requires StandsAt(IntText(n), s, i) && Ends(s, i + |IntText(n)|)
    ensures NumberStop(s, i) == i + |IntText(n)|
  {
    hide Digits;
    var text := IntText(n);
    assert AllDigits(if n < 0 then text[1..] else text);
    forall k | 0 <= k < |text| ensures NumberChar(text[k]) {
      if n < 0 && 0 < k { assert IsDigit(text[1..][k - 1]); }
      if n >= 0 { assert IsDigit(text[k]); }
    }
    NumberStops(text, s, i);
  }

  lemma {:induction false} DugStands(text: string, s: string, i: nat)
    requires Plain(text) && StandsAt(GenerateString(text), s, i)
    ensures DugString(s, i) == Done(text, i + |GenerateString(text)|)
  {
    hide StringEnd, GenerateString;
    StringStands(text, s, i);
    QuoteIsNoSpace(s, i);
  }

  /** A value is passed over exactly as far as the parser reads it. */
  lemma {:induction false} ValuePasses(v: Value, s: string, i: nat, stack: seq<Kind>)
    requires Clean(v) && NoFloats(v) && StandsAt(Generate(v), s, i) && Ends(s, i + |Generate(v)|)
    ensures StopsAt(PassValue(s, i, stack), i + |Generate(v)|)
    decreases v, 1
  {
    hide SearchObject, PassArray, GenerateItems, GenerateEntries, GenerateEntry, GenerateString, NumberStop, DugString;
    hide SkipSpaces, Ends, IntText;
    var g := Generate(v);
    FirstChar(v);
    StandsHead(g, s, i);
    NoSpace(s, i);
    match v
    case Null =>
    case Bool(b) =>
    case Int(n) =>
      IntStarts(n);
      IntStops(n, s, i);
    case Str(text) =>
      assert g == GenerateString(text);
      StringStarts(text);
      DugStands(text, s, i);
    case Arr(items) =>
      assert g[0] == '[';
      ArrayPasses(v, s, i, stack);
    case Obj(entries) =>
      assert g[0] == '{';
      ObjectRuns(v, s, i, stack);
  }

  lemma {:induction false} IntStarts(n: int)
    ensures IntText(n)[0] == '-' || IsDigit(IntText(n)[0])
  {
  }

  lemma {:induction false} StringStarts(text: string)
    ensures GenerateString(text) != "" && GenerateString(text)[0] == '"'
  {
  }

  lemma {:induction false} ArrayPasses(v: Value, s: string, i: nat, stack: seq<Kind>)
    requires v.Arr? && Clean(v) && NoFloats(v) && StandsAt(Generate(v), s, i)
    ensures StopsAt(PassArray(s, i, stack), i + |Generate(v)|)
    decreases v, 0
  {
    hide PassItems, GenerateItems, SkipSpaces, Clean, NoFloats;
    var items := v.items;
    var inner := if items == [] then "]" else Generate(items[0]) + GenerateItems(items[1..]);
    assert Generate(v) == "[" + inner;
    StandsSplit("[", inner, s, i);
    StandsHead("[", s, i);
    NoSpace(s, i);
    if items == [] {
      StandsHead("]", s, i + 1);
      NoSpace(s, i + 1);
      PassItemsStep(s, i + 1, stack + [Array]);
    } else {
      CleanItems(v);
      FirstStart(items[0], GenerateItems(items[1..]), s, i + 1);
      ItemsPass(items, s, i + 1, stack + [Array]);
    }
  }

  lemma {:induction false} CleanItems(v: Value)
    requires v.Arr? && Clean(v) && NoFloats(v)
    ensures ItemsClean(v.items) && ItemsNoFloats(v.items)
    ensures v.items != [] ==> Clean(v.items[0]) && NoFloats(v.items[0])
  {
  }

  lemma {:induction false} FirstStart(v: Value, rest: string, s: string, i: nat)
    requires NoFloats(v) && StandsAt(Generate(v) + rest, s, i)
    ensures i < |s| && SkipSpaces(s, i) == i && s[i] !in {']', '}', ','}
  {
    FirstChar(v);
    StandsHead(Generate(v) + rest, s, i);
  }

  lemma {:induction false} ItemsPass(items: seq<Value>, s: string, i: nat, stack: seq<Kind>)
    requires items != [] && ItemsClean(items) && ItemsNoFloats(items)
    requires StandsAt(Generate(items[0]) + GenerateItems(items[1..]), s, i)
    ensures StopsAt(PassItems(s, i, stack), i + |Generate(items[0])| + |GenerateItems(items[1..])|)
    decreases items, 0
  {
    hide PassItems, PassValue, Generate, GenerateItems, Clean, NoFloats, SkipSpaces;
    var rest := items[1..];
    var next := i + |Generate(items[0])|;
    StandsSplit(Generate(items[0]), GenerateItems(rest), s, i);
    MoreItems(rest, s, next);
    FirstStart(items[0], GenerateItems(rest), s, i);
    ValuePasses(items[0], s, i, stack);
    PassItemsStep(s, i, stack);
    var after := PassValue(s, i, stack).stack;
    PassItemsStep(s, next, after);
    if rest != [] {
      ItemsPass(rest, s, next + 1, after);
    }
  }

  // ---------------------------------------------------------------- objects

  lemma {:induction false} CleanEntries(v: Value)
    requires v.Obj? && Clean(v) && NoFloats(v)
    ensures EntriesClean(v.entries) && EntriesNoFloats(v.entries)
  {
  }

  /** Where the entries of a generated object stand. */
  lemma {:induction false} EntriesOf(v: Value, s: string, i: nat)
    requires v.Obj? && StandsAt(Generate(v), s, i)
    ensures CharAt(s, i, '{') && SkipSpaces(s, i) == i
    ensures v.entries == [] ==> CharAt(s, i + 1, '}') && |Generate(v)| == 2
    ensures v.entries != [] ==>
      var inner := GenerateEntry(v.entries[0]) + GenerateEntries(v.entries[1..]);
      StandsAt(inner, s, i + 1) && |Generate(v)| == 1 + |inner|
  {
    hide GenerateEntry, GenerateEntries, SkipSpaces;
    var entries := v.entries;
    var inner := if entries == [] then "}" else GenerateEntry(entries[0]) + GenerateEntries(entries[1..]);
    assert Generate(v) == "{" + inner;
    StandsSplit("{", inner, s, i);
    StandsHead("{", s, i);
    NoSpace(s, i);
    if entries == [] { StandsHead("}", s, i + 1); }
  }

  lemma {:induction false} ObjectRuns(v: Value, s: string, i: nat, stack: seq<Kind>)
    requires v.Obj? && Clean(v) && NoFloats(v) && StandsAt(Generate(v), s, i)
    ensures RunsTo(SearchObject(s, i, None, stack), i + |Generate(v)|)
    decreases v, 0
  {
    hide SearchEntries, SkipSpaces, Clean, NoFloats, Generate, Pop;
    EntriesOf(v, s, i);
    ObjectOpens(s, i, None, stack);
    if v.entries == [] {
      EmptyObject(s, i + 1, None, stack);
    } else {
      CleanEntries(v);
      EntriesRun(v.entries, s, i + 1, stack + [Object]);
    }
  }

  /** A key and its colon are read; the value stands behind them. */
  lemma {:induction false} KeyDug(f: Field, rest: string, s: string, i: nat)
    requires Plain(f.key) && StandsAt(GenerateEntry(f) + rest, s, i)
    ensures CharAt(s, i, '"') && DugKey(s, i).Done? && DugKey(s, i).value == f.key
    ensures DugKey(s, i).next + |Generate(f.value)| == i + |GenerateEntry(f)|
    ensures StandsAt(Generate(f.value), s, DugKey(s, i).next)
  {
    hide DugString, GenerateString, SkipSpaces, Generate, Plain, StringAt;
    var key, value := GenerateString(f.key), Generate(f.value);
    StandsSplit(GenerateEntry(f), rest, s, i);
    StandsSplit(key, ":" + value, s, i);
    StandsSplit(":", value, s, i + |key|);
    StandsHead(":", s, i + |key|);
    NoSpace(s, i + |key|);
    DugStands(f.key, s, i);
    TextStands(f.key, s, i);
  }

  lemma {:induction false} EntriesRun(entries: seq<Field>, s: string, i: nat, stack: seq<Kind>)
    requires entries != [] && EntriesClean(entries) && EntriesNoFloats(entries)
    requires StandsAt(GenerateEntry(entries[0]) + GenerateEntries(entries[1..]), s, i)
    ensures RunsTo(SearchEntries(s, i, None, stack), i + |GenerateEntry(entries[0])| + |GenerateEntries(entries[1..])|)
    decreases entries, 0
  {
    hide SearchEntries, PassValue, DugKey, Generate, GenerateEntry, GenerateEntries, Clean, NoFloats, SkipSpaces, Plain;
    hide SearchMore, StandsAt;
    var f, rest := entries[0], entries[1..];
    var next := i + |GenerateEntry(f)|;
    StandsSplit(GenerateEntry(f), GenerateEntries(rest), s, i);
    MoreEntries(rest, s, next);
    KeyDug(f, GenerateEntries(rest), s, i);
    ValuePasses(f.value, s, DugKey(s, i).next, stack);
    SearchStep(s, i, None, stack);
    var after := PassValue(s, DugKey(s, i).next, stack).stack;
    MoreStep(s, next, None, after);
    if rest != [] {
      EntryStarts(rest[0], GenerateEntries(rest[1..]), s, next + 1);
      QuoteIsNoSpace(s, next + 1);
      EntriesRun(rest, s, next + 1, after);
    }
  }

  lemma {:induction false} MoreStep(s: string, i: nat, key: Option<string>, stack: seq<Kind>)
    requires SkipSpaces(s, i) == i
    ensures CharAt(s, i, '}') ==> SearchMore(s, i, key, stack) == Over(key, i + 1, Pop(stack))
    ensures CharAt(s, i, ',') ==> SearchMore(s, i, key, stack) == SearchEntries(s, SkipSpaces(s, i + 1), key, stack)
  {
    hide SearchEntries, SkipSpaces;
  }

  // ---------------------------------------------------------------- looking for a key

  function Lookup(entries: seq<Field>, key: string): Option<Value> {
    if entries == [] then None
    else if entries[0].key == key then Some(entries[0].value)
    else Lookup(entries[1..], key)
  }

  /** The key's value is found where it stands; without the key, the search fails. */
  predicate Answers(r: Search, v: Option<Value>, s: string) {
    match v
    case None => r == Wrong(DiggerError)
    case Some(w) => r.Found? && StandsAt(Generate(w), s, r.start) && r.stop == r.start + |Generate(w)|
  }

  lemma {:induction false} EntriesAnswer(entries: seq<Field>, s: string, i: nat, key: string, stack: seq<Kind>)
    requires entries != [] && EntriesClean(entries) && EntriesNoFloats(entries)
    requires StandsAt(GenerateEntry(entries[0]) + GenerateEntries(entries[1..]), s, i)
    ensures Answers(SearchEntries(s, i, Some(key), stack), Lookup(entries, key), s)
    decreases entries, 0
  {
    hide SearchEntries, PassValue, DugKey, Generate, GenerateEntry, GenerateEntries, Clean, NoFloats, SkipSpaces, Plain;
    hide SearchMore, StandsAt;
    var f, rest := entries[0], entries[1..];
    var next := i + |GenerateEntry(f)|;
    StandsSplit(GenerateEntry(f), GenerateEntries(rest), s, i);
    MoreEntries(rest, s, next);
    KeyDug(f, GenerateEntries(rest), s, i);
    ValuePasses(f.value, s, DugKey(s, i).next, stack);
    SearchStep(s, i, Some(key), stack);
    var after := PassValue(s, DugKey(s, i).next, stack).stack;
    MoreStep(s, next, Some(key), after);
    if f.key != key && rest != [] {
      EntryStarts(rest[0], GenerateEntries(rest[1..]), s, next + 1);
      QuoteIsNoSpace(s, next + 1);
      EntriesAnswer(rest, s, next + 1, key, after);
    }
  }

  lemma {:induction false} ObjectAnswers(v: Value, s: string, key: string)
    requires Clean(v) && NoFloats(v) && s == Generate(v)
    ensures if v.Obj? then Answers(SearchObject(s, 0, Some(key), []), Lookup(v.entries, key), s)
            else SearchObject(s, 0, Some(key), []) == Wrong(JsonError)
  {
    hide *;
    assert StandsAt(s, s, 0) by { StandsWhole(s); }
    FirstChar(v);
    NoSpace(s, 0);
    if v.Obj? {
      var stack := [] + [Object];
      EntriesOf(v, s, 0);
      ObjectOpens(s, 0, Some(key), []);
      if v.entries == [] {
        EmptyObject(s, 1, Some(key), []);
        NoAnswer(key, s);
      } else {
        CleanEntries(v);
        EntriesAnswer(v.entries, s, 1, key, stack);
      }
    } else {
      NoObjectOpens(s, key);
    }
  }

  lemma {:induction false} StandsWhole(s: string)
    ensures StandsAt(s, s, 0)
  {
    assert s[0..0 + |s|] == s;
  }

  lemma {:induction false} ObjectOpens(s: string, i: nat, key: Option<string>, stack: seq<Kind>)
    requires CharAt(s, i, '{') && SkipSpaces(s, i) == i
    ensures SearchObject(s, i, key, stack) == SearchEntries(s, i + 1, key, stack + [Object])
  {
    hide SearchEntries, SkipSpaces;
  }

  lemma {:induction false} NoObjectOpens(s: string, key: string)
    requires s != "" && s[0] != '{' && SkipSpaces(s, 0) == 0
    ensures SearchObject(s, 0, Some(key), []) == Wrong(JsonError)
  {
    hide SearchEntries, SkipSpaces;
  }

  lemma {:induction false} EmptyObject(s: string, i: nat, key: Option<string>, stack: seq<Kind>)
    requires CharAt(s, i, '}')
    ensures SearchEntries(s, i, key, stack + [Object]) == Over(key, i + 1, Pop(stack + [Object]))
    ensures key.Some? ==> SearchEntries(s, i, key, stack + [Object]) == Wrong(DiggerError)
  {
    hide SearchEntries;
    SearchStep(s, i, key, stack + [Object]);
  }

  lemma {:induction false} NoAnswer(key: string, s: string)
    ensures Answers(Wrong(DiggerError), Lookup([], key), s)
  {
  }

  lemma {:induction false} LookupGood(entries: seq<Field>, key: string)
    requires GoodEntries(entries) && Lookup(entries, key).Some?
    ensures Good(Lookup(entries, key).value)
  {
    hide Good, GoodEntries;
    GoodFirstEntry(entries);
    if entries[0].key != key { LookupGood(entries[1..], key); }
  }

  // ---------------------------------------------------------------- stripping changes nothing

  lemma {:induction false} LastChar(v: Value)
    requires NoFloats(v)
    ensures Generate(v) != "" && !Blanks.IsBlank(Generate(v)[|Generate(v)| - 1])
    decreases v
  {
    hide GenerateItems, GenerateEntries, GenerateEntry, Digits, Translated;
    var g := Generate(v);
    match v
    case Null =>
    case Bool(b) =>
    case Int(n) =>
      assert AllDigits(if n < 0 then g[1..] else g);
      assert IsDigit(if n < 0 then g[1..][|g| - 2] else g[|g| - 1]);
    case Str(text) =>
    case Arr(items) =>
      if items != [] { ItemsLast(items[1..]); }
    case Obj(entries) =>
      if entries != [] { EntriesLast(entries[1..]); }
  }

  lemma {:induction false} ItemsLast(items: seq<Value>)
    ensures var g := GenerateItems(items); g != "" && g[|g| - 1] == ']'
    decreases |items|
  {
    hide Generate;
    if items != [] { ItemsLast(items[1..]); }
  }

  lemma {:induction false} EntriesLast(entries: seq<Field>)
    ensures var g := GenerateEntries(entries); g != "" && g[|g| - 1] == '}'
    decreases |entries|
  {
    hide GenerateEntry;
    if entries != [] { EntriesLast(entries[1..]); }
  }

  lemma {:induction false} GeneratedTrimmed(v: Value)
    requires NoFloats(v)
    ensures Blanks.Strip(Generate(v)) == Generate(v)
  {
    hide Generate, Blanks.Strip;
    LastChar(v);
    FirstChar(v);
    assert !Blanks.IsBlank(Generate(v)[0]);
    Blanks.StripTrimmed(Generate(v));
  }

  // ---------------------------------------------------------------- whole paths

  datatype Walked = Reached(v: Value) | Lost(error: Error)

  /** Following string keys through a parsed document. */
  function Walk(v: Value, keys: seq<string>): Walked
    decreases |keys|
  {
    if keys == [] then Reached(v)
    else if !v.Obj? then Lost(JsonError)
    else
      var w := Lookup(v.entries, keys[0]);
      if w.None? then Lost(DiggerError) else Walk(w.value, keys[1..])
  }

  /** Digging in the text of any value, as it stands in a document, follows the walk. */
  lemma {:induction false} DigFollowsWalk(v: Value, keys: seq<string>)
    requires Good(v)
    ensures var w, d := Walk(v, keys), DigKeys(Generate(v), keys);
            if w.Lost? then d == Missed(w.error)
            else d == Dug(Generate(w.v)) && ValueAt(d.json, 0) == Done(w.v, |d.json|)
    decreases |keys|
  {
    hide Generate, SearchObject, ValueAt, Lookup, Clean, NoFloats, Distinct, Blanks.Strip;
    var s := Generate(v);
    if keys == [] {
      TextRoundTrip(v);
    } else {
      ObjectAnswers(v, s, keys[0]);
      if v.Obj? {
        var w := Lookup(v.entries, keys[0]);
        if w.Some? {
          GoodObject(v);
          LookupGood(v.entries, keys[0]);
          var r := SearchObject(s, 0, Some(keys[0]), []);
          assert Slice(s, r.start, r.stop) == Generate(w.value);
          GeneratedTrimmed(w.value);
          DigFollowsWalk(w.value, keys[1..]);
        }
      }
    }
  }

  /** For every document and every path of string keys: digging in the generated text and parsing the
      part gives what walking the document gives; a key that is missing from an object on the path
      raises DiggerError, and a value on the path that is not an object a JSONError. A boolean is no
      document: it is generated as a boolean. */
  lemma {:induction false} DiggingIsWalking(v: Value, keys: seq<string>)
    requires !v.Bool? && Good(v)
    ensures var w, d := Walk(v, keys), DigKeys(Generate(v), keys);
            if w.Lost? then d == Missed(w.error)
            else d == Dug(Generate(w.v)) && ValueAt(d.json, 0) == Done(w.v, |d.json|)
  {
    hide Generate, ValueAt, Walk, DigKeys, Clean, NoFloats, Distinct;
    DigFollowsWalk(v, keys);
  }

  /** The digger passes over a generated value exactly as far as the parser reads it. */
  lemma {:induction false} DiggerStopsWithParser(v: Value, s: string, i: nat, stack: seq<Kind>)
    requires Good(v) && StandsAt(Generate(v), s, i) && Ends(s, i + |Generate(v)|)
    ensures PassValue(s, i, stack).Passed? && ValueAt(s, i).Done? && PassValue(s, i, stack).index == ValueAt(s, i).next
  {
    hide Generate, ValueAt, PassValue, Clean, NoFloats, Distinct;
    ValuePasses(v, s, i, stack);
    ValueStands(v, s, i);
  }
}
