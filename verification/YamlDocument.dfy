/** Reading back what was written, from text to text. */
module YamlDocument {
  import opened Options
  import opened Hashes
  import opened Blanks
  import opened YamlText
  import opened YamlModel
  import opened YamlRoundTrip
  import opened YamlReader

  // ---------------------------------------------------------------- the text line by line

  function EntryText(indent: nat, f: Field): string {
    Spaces(indent) + f.key + ":" + (if f.value.Leaf? then " " + ScalarText(f.value.scalar) else "")
  }

  function ItemText(indent: nat, v: Value): string {
    Spaces(indent) + "- " + (if v.Leaf? then ScalarText(v.scalar) else "")
  }

  function TextLines(v: Value, indent: nat): seq<string>
    decreases v, 1
  {
    match v
    case Leaf(_) => []
    case Hash(entries) => EntryTexts(entries, indent)
    case Arr(items) => ItemTexts(items, indent)
  }

  function EntryTexts(entries: seq<Field>, indent: nat): seq<string>
    decreases entries, 0
  {
    if entries == [] then []
    else [EntryText(indent, entries[0])] + TextLines(entries[0].value, indent + 2) + EntryTexts(entries[1..], indent)
  }

  function ItemTexts(items: seq<Value>, indent: nat): seq<string>
    decreases items, 0
  {
    if items == [] then []
    else [ItemText(indent, items[0])] + TextLines(items[0], indent + 2) + ItemTexts(items[1..], indent)
  }

  /** Lines joined into a text, each ended by a newline. */
  function Unlines(lines: seq<string>): string {
    if lines == [] then "" else lines[0] + "\n" + Unlines(lines[1..])
  }

  lemma {:induction false} UnlinesConcat(a: seq<string>, b: seq<string>)
    ensures Unlines(a + b) == Unlines(a) + Unlines(b)
  {
    if a == [] {
      assert a + b == b;
    } else {
      UnlinesConcat(a[1..], b);
      assert (a + b)[1..] == a[1..] + b;
      assert a[0] + "\n" + (Unlines(a[1..]) + Unlines(b)) == (a[0] + "\n" + Unlines(a[1..])) + Unlines(b);
    }
  }

  lemma {:induction false} UnlinesCons(line: string, a: seq<string>, b: seq<string>)
    ensures Unlines([line] + a + b) == line + "\n" + Unlines(a) + Unlines(b)
  {
    UnlinesConcat([line] + a, b);
    UnlinesConcat([line], a);
    assert Unlines([line]) == line + "\n" + Unlines([]);
  }

  lemma {:induction false} SerializeIsLines(v: Value, indent: nat)
    requires !v.Leaf?
    ensures Serialize(v, indent) == Unlines(TextLines(v, indent))
    decreases v, 1
  {
    match v
    case Hash(entries) => SerializeEntriesIsLines(entries, indent);
    case Arr(items) => SerializeItemsIsLines(items, indent);
  }

  /** What the writer makes of one entry. */
  function EntryPiece(f: Field, indent: nat): string {
    Spaces(indent) + f.key + ":"
    + (if f.value == Leaf(Null) then " null\n"
       else if f.value.Leaf? then " " + Serialize(f.value, 0) + "\n"
       else "\n" + Serialize(f.value, indent + 2))
  }

  lemma {:induction false} EntryPieceIsLine(f: Field, indent: nat)
    ensures EntryPiece(f, indent)
            == EntryText(indent, f) + "\n" + (if f.value.Leaf? then "" else Serialize(f.value, indent + 2))
  {
    hide Spaces, SerializeEntries, SerializeItems;
    var head := Spaces(indent) + f.key + ":";
    if f.value.Leaf? {
      assert EntryPiece(f, indent) == head + (" " + ScalarText(f.value.scalar) + "\n") by {
        if f.value == Leaf(Null) { assert ScalarText(Null) == "null" && " " + "null" + "\n" == " null\n"; }
      }
      hide ScalarText;
      assert head + (" " + ScalarText(f.value.scalar) + "\n") == EntryText(indent, f) + "\n" + "";
    } else {
      var inner := Serialize(f.value, indent + 2);
      assert head + ("\n" + inner) == (head + "") + "\n" + inner;
    }
  }

  lemma {:induction false} SerializeEntriesIsLines(entries: seq<Field>, indent: nat)
    ensures SerializeEntries(entries, indent) == Unlines(EntryTexts(entries, indent))
    decreases entries, 0
  {
    if entries != [] {
      hide Spaces, Serialize, EntryText, Unlines;
      var f, v := entries[0], entries[0].value;
      SerializeEntriesIsLines(entries[1..], indent);
      UnlinesCons(EntryText(indent, f), TextLines(v, indent + 2), EntryTexts(entries[1..], indent));
      EntryPieceIsLine(f, indent);
      assert SerializeEntries(entries, indent) == EntryPiece(f, indent) + SerializeEntries(entries[1..], indent);
      if v.Leaf? {
        NoLines(v, indent + 2);
      } else {
        SerializeIsLines(v, indent + 2);
      }
    } else {
      NoLines(Leaf(Null), indent);
    }
  }

  lemma {:induction false} NoLines(v: Value, indent: nat)
    ensures v.Leaf? ==> Unlines(TextLines(v, indent)) == ""
    ensures Unlines([]) == ""
  {
  }

  /** What the writer makes of one item. */
  function ItemPiece(v: Value, indent: nat): string {
    Spaces(indent) + "- "
    + (if v == Leaf(Null) then "null\n"
       else if v.Leaf? then Serialize(v, 0) + "\n"
       else "\n" + Serialize(v, indent + 2))
  }

  lemma {:induction false} ItemPieceIsLine(v: Value, indent: nat)
    ensures ItemPiece(v, indent) == ItemText(indent, v) + "\n" + (if v.Leaf? then "" else Serialize(v, indent + 2))
  {
    hide Spaces, SerializeEntries, SerializeItems;
    var head := Spaces(indent) + "- ";
    if v.Leaf? {
      assert ItemPiece(v, indent) == head + (ScalarText(v.scalar) + "\n") by {
        if v == Leaf(Null) { assert ScalarText(Null) == "null" && "null" + "\n" == "null\n"; }
      }
      hide ScalarText;
      assert head + (ScalarText(v.scalar) + "\n") == ItemText(indent, v) + "\n" + "";
    } else {
      var inner := Serialize(v, indent + 2);
      assert head + ("\n" + inner) == (head + "") + "\n" + inner;
    }
  }

  lemma {:induction false} SerializeItemsIsLines(items: seq<Value>, indent: nat)
    ensures SerializeItems(items, indent) == Unlines(ItemTexts(items, indent))
    decreases items, 0
  {
    if items != [] {
      hide Spaces, Serialize, ItemText, Unlines;
      var v := items[0];
      SerializeItemsIsLines(items[1..], indent);
      UnlinesCons(ItemText(indent, v), TextLines(v, indent + 2), ItemTexts(items[1..], indent));
      ItemPieceIsLine(v, indent);
      assert SerializeItems(items, indent) == ItemPiece(v, indent) + SerializeItems(items[1..], indent);
      if v.Leaf? {
        NoLines(v, indent + 2);
      } else {
        SerializeIsLines(v, indent + 2);
      }
    } else {
      NoLines(Leaf(Null), indent);
    }
  }

  // ---------------------------------------------------------------- splitting

  /** Lines that a newline cannot be found in, and that are not empty. */
  predicate Proper(lines: seq<string>) {
    forall i :: 0 <= i < |lines| ==> lines[i] != "" && '\n' !in lines[i]
  }

  lemma {:induction false} SplitAt<A>(a: seq<A>, x: A, b: seq<A>)
    ensures var s := a + [x] + b; s[..|a|] == a && s[|a|] == x && s[|a| + 1..] == b
  {}

  lemma {:induction false} FieldsOfUnlines(lines: seq<string>)
    requires Proper(lines)
    ensures Fields(Unlines(lines), '\n') == lines + [""]
  {
    if lines == [] {
      assert Fields("", '\n') == [""];
    } else {
      hide Proper, IndexOf;
      var line, rest := lines[0], Unlines(lines[1..]);
      assert Unlines(lines) == line + "\n" + rest;
      SplitAt(line, '\n', rest);
      ProperHead(lines);
      IndexIs(line + "\n" + rest, '\n', |line|);
      FieldsOfUnlines(lines[1..]);
      assert lines + [""] == [line] + (lines[1..] + [""]);
    }
  }

  lemma {:induction false} ProperHead(lines: seq<string>)
    requires Proper(lines) && lines != []
    ensures Proper(lines[1..])
    ensures forall t: string, j :: 0 <= j < |lines[0]| ==> (lines[0] + "\n" + t)[j] != '\n'
  {
    assert '\n' !in lines[0];
  }

  lemma {:induction false} SplitOfUnlines(lines: seq<string>)
    requires Proper(lines)
    ensures Split(Unlines(lines), '\n') == lines
  {
    FieldsOfUnlines(lines);
    assert (lines + [""])[..|lines|] == lines;
    assert DropTrailingEmpty(lines) == lines;
  }

  lemma {:induction false} ReadLinesConcat(a: seq<string>, b: seq<string>)
    ensures ReadLines(a + b) == ReadLines(a) + ReadLines(b)
    ensures Proper(a) && Proper(b) ==> Proper(a + b)
  {
    hide ReadLine;
  }

  // ---------------------------------------------------------------- reading one line

  lemma {:induction false} StripPadded(pad: nat, text: string, tail: string)
    requires Trimmed(text) && (tail == "" || tail == " ")
    ensures LStrip(Spaces(pad) + text + tail) == text + tail && Strip(Spaces(pad) + text + tail) == text
  {
    assert Spaces(pad) + text + tail == Spaces(pad) + (text + tail);
    LStripSpaces(Spaces(pad), text + tail);
    RStripSpaces(text, tail);
  }

  lemma {:induction false} ScalarField(s: Scalar)
    requires ScalarOk(s)
    ensures Trimmed(ScalarText(s)) && '\n' !in ScalarText(s)
    ensures Strip(" " + ScalarText(s)) == ScalarText(s) && Strip(ScalarText(s)) == ScalarText(s)
    ensures ScalarOf(ScalarText(s)) == Some(s)
  {
    hide ScalarText, ParseValue, LStrip, RStrip, ScalarOk;
    ScalarRoundTrip(s);
    StripTrimmed(ScalarText(s));
    StripPadded(1, ScalarText(s), "");
    assert Spaces(1) + ScalarText(s) + "" == " " + ScalarText(s);
  }

  lemma {:induction false} KeySplits(key: string, tail: string)
    requires ':' !in key
    ensures var text := key + ":" + tail;
            text[..|key|] == key && text[|key|] == ':' && text[|key| + 1..] == tail && IndexOf(text, ':') == |key|
  {
    hide IndexOf;
    IndexIs(key + ":" + tail, ':', |key|);
  }

  lemma {:induction false} EntryTextIs(indent: nat, f: Field, tail: string)
    requires tail == if f.value.Leaf? then " " + ScalarText(f.value.scalar) else ""
    requires '\n' !in f.key && '\n' !in tail
    ensures EntryText(indent, f) == Spaces(indent) + (f.key + ":" + tail)
    ensures '\n' !in EntryText(indent, f) && EntryText(indent, f) != ""
  {
    hide ScalarText;
    assert Spaces(indent) + (f.key + ":" + tail) == Spaces(indent) + f.key + ":" + tail;
  }

  /** Indentation is the only blank part of an entry's text. */
  lemma {:induction false} EntryStripped(indent: nat, key: string, tail: string)
    requires Trimmed(key) && (tail != "" ==> tail[0] == ' ' && |tail| > 1 && !IsBlank(tail[|tail| - 1]))
    ensures var text := key + ":" + tail;
            Strip(Spaces(indent) + text) == text && LStrip(Spaces(indent) + text) == text && text[0] == key[0]
  {
    hide LStrip, RStrip, Spaces, Strip;
    var text := key + ":" + tail;
    assert text[|text| - 1] == if tail == "" then ':' else tail[|tail| - 1];
    StripPadded(indent, text, "");
    assert Spaces(indent) + text + "" == Spaces(indent) + text && text + "" == text;
  }

  lemma {:induction false} EntryLineReads(indent: nat, f: Field)
    requires KeyOk(f.key) && WellFormed(f.value)
    ensures ReadLine(EntryText(indent, f)) == Entry(indent, f.key, ScalarIn(f.value))
    ensures '\n' !in EntryText(indent, f) && EntryText(indent, f) != ""
  {
    hide ScalarText, LStrip, RStrip, ScalarOk, ScalarOf, IndexOf, Spaces;
    var tail := if f.value.Leaf? then " " + ScalarText(f.value.scalar) else "";
    if f.value.Leaf? { ScalarField(f.value.scalar); }
    var text := f.key + ":" + tail;
    EntryTextIs(indent, f, tail);
    EntryStripped(indent, f.key, tail);
    KeySplits(f.key, tail);
    StripTrimmed(f.key);
    StripEmpty();
  }

  lemma {:induction false} StripEmpty()
    ensures Strip("") == "" && ScalarOf("") == None
  {}

  lemma {:induction false} ItemLineReads(indent: nat, v: Value)
    requires WellFormed(v)
    ensures ReadLine(ItemText(indent, v)) == Item(indent, ScalarIn(v))
    ensures '\n' !in ItemText(indent, v) && ItemText(indent, v) != ""
  {
    hide ScalarText, LStrip, RStrip, ScalarOk, ScalarOf;
    if v.Leaf? {
      ScalarField(v.scalar);
      var t := ScalarText(v.scalar);
      var text := "- " + t;
      assert text[|text| - 1] == t[|t| - 1];
      StripPadded(indent, text, "");
      assert ItemText(indent, v) == Spaces(indent) + text + "" && text + "" == text;
      assert FirstBlank(text) == 1;
      assert text[2..] == t;
    } else {
      StripPadded(indent, "-", " ");
      assert ItemText(indent, v) == Spaces(indent) + "-" + " ";
      assert FirstBlank("-") == 1;
    }
  }

  lemma {:induction false} ReadOne(line: string)
    ensures ReadLines([line]) == [ReadLine(line)]
  {}

  lemma {:induction false} LinesRead(v: Value, indent: nat)
    requires WellFormed(v)
    ensures Proper(TextLines(v, indent)) && ReadLines(TextLines(v, indent)) == Lines(v, indent)
    decreases v, 1
  {
    match v
    case Leaf(_) =>
    case Hash(entries) => EntryLinesRead(entries, indent);
    case Arr(items) => ItemLinesRead(items, indent);
  }

  lemma {:induction false} EntryLinesRead(entries: seq<Field>, indent: nat)
    requires EntriesOk(entries)
    ensures Proper(EntryTexts(entries, indent)) && ReadLines(EntryTexts(entries, indent)) == EntryLines(entries, indent)
    decreases entries, 0
  {
    if entries != [] {
      hide ReadLine, EntryText, ReadLines;
      EntryLineReads(indent, entries[0]);
      var head, body := [EntryText(indent, entries[0])], TextLines(entries[0].value, indent + 2);
      var rest := EntryTexts(entries[1..], indent);
      ReadLinesConcat(head + body, rest);
      ReadLinesConcat(head, body);
      ReadOne(head[0]);
      LinesRead(entries[0].value, indent + 2);
      EntryLinesRead(entries[1..], indent);
    }
  }

  lemma {:induction false} ItemLinesRead(items: seq<Value>, indent: nat)
    requires ItemsOk(items)
    ensures Proper(ItemTexts(items, indent)) && ReadLines(ItemTexts(items, indent)) == ItemLines(items, indent)
    decreases items, 0
  {
    if items != [] {
      hide ReadLine, ItemText, ReadLines;
      ItemLineReads(indent, items[0]);
      var head, body := [ItemText(indent, items[0])], TextLines(items[0], indent + 2);
      var rest := ItemTexts(items[1..], indent);
      ReadLinesConcat(head + body, rest);
      ReadLinesConcat(head, body);
      ReadOne(head[0]);
      LinesRead(items[0], indent + 2);
      ItemLinesRead(items[1..], indent);
    }
  }

  // ---------------------------------------------------------------- the theorems

  /** `parse`, as a function: the final store, read at the root container 0. */
  function Load(text: string): Result<State> {
    Steps(START, ReadLines(Split(text, '\n')))
  }

  /** For every well-formed hash, at any depth, reading what was written succeeds, and the root then
      holds the hash with its empty and directly nested arrays turned into empty hashes. */
  lemma {:induction false} LoadOfDump(v: Value) returns (r: State)
    requires v.Hash? && WellFormed(v)
    ensures Load(Serialize(v, 0)) == Ok(r) && Holds(r.heap, Ref(0), Norm(v), 0)
  {
    SerializeIsLines(v, 0);
    LinesRead(v, 0);
    SplitOfUnlines(TextLines(v, 0));
    assert Resumes(START, [0], [-1], 0);
    var cells;
    r, cells := EntriesRead(START, [0], [-1], 0, v.entries, []);
    assert [] + cells == cells;
    HoldsEntriesFrame(r.heap, r.heap, cells, NormEntries(v.entries), 1, 0);
  }

  /** Reading back gives the hash itself exactly when no array in it is empty or directly inside
      another array. */
  lemma {:induction false} RoundTrip(v: Value)
    requires v.Hash? && WellFormed(v)
    ensures Load(Serialize(v, 0)).Ok? && (Holds(Load(Serialize(v, 0)).value.heap, Ref(0), v, 0) <==> Faithful(v))
  {
    hide Load, Holds, WellFormed;
    var r := LoadOfDump(v);
    NormIsIdentity(v);
    if Holds(r.heap, Ref(0), v, 0) {
      HoldsUnique(r.heap, Ref(0), v, Norm(v), 0);
    }
  }
}
