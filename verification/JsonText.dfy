/** JSON values, the generator, and the scanning that parser and digger share. */
module JsonText {
  import opened Hashes
  import opened Decimal

  /** A hash keeps its entries in insertion order. A float is kept as its text. */
  datatype Value =
    | Null | Bool(b: bool) | Int(i: int) | Float(text: string) | Str(s: string)
    | Arr(items: seq<Value>) | Obj(entries: seq<Field>)

  type Field = Pair<Value>

  datatype Error = JsonError | ParserError | DiggerError

  // ---------------------------------------------------------------- generator

  /** `tr` with both characters of the quoted set mapped to a quote. */
  function Translated(s: string): (r: string)
    ensures |r| == |s|
  {
    if s == "" then "" else [if s[0] == '\\' then '"' else s[0]] + Translated(s[1..])
  }

  function GenerateString(s: string): string {
    "\"" + (Translated(s) + "\"")
  }

  /** `JSON::Generator#generate`, as interpolated into its surroundings. */
  function Generate(v: Value): string
    decreases v, 1
  {
    match v
    case Null => "null"
    case Bool(b) => if b then "true" else "false"
    case Int(i) => IntText(i)
    case Float(text) => text
    case Str(s) => GenerateString(s)
    case Arr(items) =>
      if items == [] then "[]" else "[" + (Generate(items[0]) + GenerateItems(items[1..]))
    case Obj(entries) =>
      if entries == [] then "{}" else "{" + (GenerateEntry(entries[0]) + GenerateEntries(entries[1..]))
  }

  /** The remaining items, each behind a comma, and the bracket. */
  function GenerateItems(items: seq<Value>): string
    decreases items, 0
  {
    if items == [] then "]" else "," + (Generate(items[0]) + GenerateItems(items[1..]))
  }

  function GenerateEntry(f: Field): string
    decreases f, 0
  {
    GenerateString(f.key) + (":" + Generate(f.value))
  }

  function GenerateEntries(entries: seq<Field>): string
    decreases entries, 0
  {
    if entries == [] then "}" else "," + (GenerateEntry(entries[0]) + GenerateEntries(entries[1..]))
  }

  // ---------------------------------------------------------------- scanning

  predicate IsSpace(c: char) {
    c in {' ', '\t', '\n', '\r'}
  }

  /** `skip_whitespace`. */
  function SkipSpaces(s: string, i: nat): (j: nat)
    ensures i <= j && (i <= |s| ==> j <= |s|) && (j < |s| ==> !IsSpace(s[j]))
    decreases |s| - i
  {
    if i < |s| && IsSpace(s[i]) then SkipSpaces(s, i + 1) else i
  }

  predicate CharAt(s: string, i: nat, c: char) {
    i < |s| && s[i] == c
  }

  /** `skip_whitespace`, of `JSON::Common`: the new index. */
  method SkipWhitespace(json: string, start: nat) returns (index: nat)
    ensures index == SkipSpaces(json, start)
  {
    index := start;
    while index < |json| && IsSpace(json[index])
      invariant SkipSpaces(json, index) == SkipSpaces(json, start)
    {
      index := index + 1;
    }
  }

  /** `expect`. */
  method Expect(json: string, start: nat, c: char) returns (ok: bool, index: nat)
    ensures ok <==> CharAt(json, start, c)
    ensures index == if ok then start + 1 else start
  {
    ok := start < |json| && json[start] == c;
    index := if ok then start + 1 else start;
  }

  /** `expect_sequence`. */
  method ExpectSequence(json: string, start: nat, word: string) returns (ok: bool, index: nat)
    requires start < |json|
    ensures ok <==> StandsAt(word, json, start)
    ensures ok ==> index == start + |word|
  {
    ok, index := true, start;
    for k := 0 to |word|
      invariant ok && index == start + k <= |json| && json[start..start + k] == word[..k]
    {
      ok, index := Expect(json, index, word[k]);
      if !ok {
        StandsChar(word, json, start, k);
        return;
      }
      assert json[start..start + k + 1] == json[start..start + k] + [json[start + k]];
    }
  }

  lemma {:induction false} StandsChar(word: string, s: string, i: nat, k: nat)
    requires k < |word|
    ensures StandsAt(word, s, i) ==> i + k < |s| && s[i + k] == word[k]
  {
    if StandsAt(word, s, i) { assert s[i + k] == s[i..i + |word|][k]; }
  }

  /** Index of the closing quote of a string whose contents start at i; the length if there is none. */
  function StringEnd(s: string, i: nat): (j: nat)
    ensures j <= |s| && (j < |s| ==> i <= j && s[j] == '"')
    decreases |s| - i
  {
    if i >= |s| then |s|
    else if s[i] == '"' then i
    else if s[i] == '\\' then StringEnd(s, i + 2)
    else StringEnd(s, i + 1)
  }

  /** The part of a text from an index on that has the length of `part` is `part`. */
  predicate StandsAt(part: string, s: string, i: nat) {
    i + |part| <= |s| && s[i..i + |part|] == part
  }

  lemma {:induction false} StandsSplit(a: string, b: string, s: string, i: nat)
    requires StandsAt(a + b, s, i)
    ensures StandsAt(a, s, i) && StandsAt(b, s, i + |a|)
  {
    assert s[i..i + |a|] == (a + b)[..|a|];
    assert s[i + |a|..i + |a| + |b|] == (a + b)[|a|..];
  }

  lemma {:induction false} StandsHead(a: string, s: string, i: nat)
    requires StandsAt(a, s, i) && a != ""
    ensures i < |s| && s[i] == a[0]
  {
    assert s[i] == s[i..i + |a|][0];
  }

  /** No quote and no backslash. */
  predicate Plain(s: string) {
    '"' !in s && '\\' !in s
  }

  lemma {:induction false} PlainTranslated(s: string)
    requires '\\' !in s
    ensures Translated(s) == s
  {
    if s != "" {
      assert s[0] in s && '\\' !in s[1..];
      PlainTranslated(s[1..]);
      assert s == [s[0]] + s[1..];
    }
  }

  lemma {:induction false} PlainEnd(part: string, s: string, i: nat)
    requires Plain(part) && StandsAt(part, s, i) && CharAt(s, i + |part|, '"')
    ensures StringEnd(s, i) == i + |part|
    decreases |part|
  {
    if part != "" {
      StandsHead(part, s, i);
      assert part[0] in part && Plain(part[1..]);
      assert s[i + 1..i + |part|] == part[1..];
      PlainEnd(part[1..], s, i + 1);
    }
  }

  /** The closing quote of a generated plain string is found. */
  lemma {:induction false} StringStands(key: string, s: string, i: nat)
    requires Plain(key) && StandsAt(GenerateString(key), s, i)
    ensures CharAt(s, i, '"') && StringEnd(s, i + 1) == i + 1 + |key| < |s| && s[i + 1..i + 1 + |key|] == key
    ensures |GenerateString(key)| == |key| + 2
  {
    PlainTranslated(key);
    StandsHead(GenerateString(key), s, i);
    StandsSplit("\"", key + "\"", s, i);
    StandsSplit(key, "\"", s, i + 1);
    StandsHead("\"", s, i + 1 + |key|);
    PlainEnd(key, s, i + 1);
  }

  /** A generated value starts with none of the characters that the readers skip or stop at. */
  lemma {:induction false} FirstChar(v: Value)
    requires NoFloats(v)
    ensures Generate(v) != "" && !IsSpace(Generate(v)[0])
    ensures Generate(v)[0] in {'{', '[', '"', '-', 't', 'f', 'n'} || IsDigit(Generate(v)[0])
    ensures Generate(v)[0] == '{' <==> v.Obj?
  {
  }

  // ---------------------------------------------------------------- domains

  /** Numbers are integers. */
  predicate NoFloats(v: Value)
    decreases v, 1
  {
    match v
    case Float(_) => false
    case Arr(items) => ItemsNoFloats(items)
    case Obj(entries) => EntriesNoFloats(entries)
    case _ => true
  }

  predicate ItemsNoFloats(items: seq<Value>)
    decreases items, 0
  {
    items == [] || (NoFloats(items[0]) && ItemsNoFloats(items[1..]))
  }

  predicate EntriesNoFloats(entries: seq<Field>)
    decreases entries, 0
  {
    entries == [] || (NoFloats(entries[0].value) && EntriesNoFloats(entries[1..]))
  }

  /** Strings and keys contain neither quote nor backslash, at any depth. */
  predicate Clean(v: Value)
    decreases v, 1
  {
    match v
    case Str(s) => Plain(s)
    case Arr(items) => ItemsClean(items)
    case Obj(entries) => EntriesClean(entries)
    case _ => true
  }

  predicate ItemsClean(items: seq<Value>)
    decreases items, 0
  {
    items == [] || (Clean(items[0]) && ItemsClean(items[1..]))
  }

  predicate EntriesClean(entries: seq<Field>)
    decreases entries, 0
  {
    entries == [] || (Plain(entries[0].key) && Clean(entries[0].value) && EntriesClean(entries[1..]))
  }

  /** Keys of a hash are distinct, as in any Ruby hash. */
  predicate Distinct(v: Value)
    decreases v, 1
  {
    match v
    case Arr(items) => ItemsDistinct(items)
    case Obj(entries) => EntriesDistinct(entries)
    case _ => true
  }

  predicate ItemsDistinct(items: seq<Value>)
    decreases items, 0
  {
    items == [] || (Distinct(items[0]) && ItemsDistinct(items[1..]))
  }

  predicate EntriesDistinct(entries: seq<Field>)
    decreases entries, 0
  {
    entries == []
    || (&& Distinct(entries[0].value) && EntriesDistinct(entries[1..])
        && (forall j :: 0 < j < |entries| ==> entries[j].key != entries[0].key))
  }
}
