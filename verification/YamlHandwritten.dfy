/** What the reader makes of texts that the writer does not produce. */
module YamlHandwritten {
  import opened Options
  import opened Hashes
  import opened Blanks
  import opened YamlText
  import opened YamlModel
  import opened YamlRoundTrip
  import opened YamlReader
  import opened YamlDocument

  // ---------------------------------------------------------------- single lines

  lemma {:induction false} StripBetween(pad: string, text: string, tail: string)
    requires AllBlank(pad) && AllBlank(tail) && Trimmed(text)
    ensures Strip(pad + text + tail) == text && |pad + text + tail| - |LStrip(pad + text + tail)| == |pad|
  {
    assert pad + text + tail == pad + (text + tail);
    LStripSpaces(pad, text + tail);
    RStripSpaces(text, tail);
  }

  lemma {:induction false} AllBlankStrips(s: string)
    requires AllBlank(s)
    ensures Strip(s) == ""
  {
    if s != "" { AllBlankStrips(s[1..]); }
  }

  /** A line is passed over if and only if it is blank, or its first character that is not is `#`. */
  lemma {:induction false} SkippedLine(line: string)
    ensures ReadLine(line).Skip? <==>
      AllBlank(line) || exists a :: 0 <= a < |line| && AllBlank(line[..a]) && line[a] == '#'
  {
    hide Strip, LStrip, AllBlank;
    SkipIsStripped(line);
    var a, b := StripParts(line);
    if AllBlank(line) { AllBlankStrips(line); }
    if c: int :| 0 <= c < |line| && AllBlank(line[..c]) && line[c] == '#' { HashStrips(line, c); }
    assert a == b ==> line == line[..a] + line[b..];
    if a == b { BothBlank(line[..a], line[b..]); }
  }

  lemma {:induction false} SkipIsStripped(line: string)
    ensures ReadLine(line).Skip? <==> Strip(line) == "" || Strip(line)[0] == '#'
  {
    hide Strip, LStrip, ParseListItem, SplitKeyValue;
  }

  lemma {:induction false} BothBlank(a: string, b: string)
    requires AllBlank(a) && AllBlank(b)
    ensures AllBlank(a + b)
  {
  }

  lemma {:induction false} HashStrips(line: string, c: nat)
    requires c < |line| && AllBlank(line[..c]) && line[c] == '#'
    ensures Strip(line) != "" && Strip(line)[0] == '#'
  {
    hide Strip, LStrip;
    var n := RStripPart(line[c..]);
    assert line[c..][0] == '#' && !AllBlank(line[c..]);
    assert line[c..][..n] == line[c..c + n] && line[c..][n..] == line[c + n..];
    assert Trimmed(line[c..c + n]);
    PaddedStrips(line, c, c + n);
  }

  /** A key and its value, with any blanks around them. The value is what its text is read as, and
      absent if there is none. */
  lemma {:induction false} EntryAsWritten(
    pad: string, key: string, gap: string, sep: string, text: string, tail: string)
    requires AllBlank(pad) && AllBlank(gap) && AllBlank(sep) && AllBlank(tail)
    requires KeyOk(key) && (text == "" || Trimmed(text))
    ensures ReadLine(pad + (key + gap + ":" + sep + text) + tail)
            == Entry(|pad|, key, if text == "" then None else Some(ParseValue(text)))
  {
    hide Strip, LStrip, ParseValue, ReadLine;
    if text == "" {
      var all := key + gap + ":";
      var rest := sep + tail;
      assert pad + (key + gap + ":" + sep + text) + tail == pad + all + rest;
      StripBetween(pad, all, rest);
      KeyReads(key, gap, "");
      assert key + gap + ":" + "" == all;
      AllBlankStrips("");
      ReadEntry(pad + all + rest, all);
    } else {
      var all := key + gap + ":" + sep + text;
      StripBetween(pad, all, tail);
      StripBetween(sep, text, "");
      assert sep + text + "" == sep + text;
      KeyReads(key, gap, sep + text);
      assert key + gap + ":" + (sep + text) == all;
      ReadEntry(pad + all + tail, all);
    }
  }

  lemma {:induction false} KeyReads(key: string, gap: string, rest: string)
    requires KeyOk(key) && AllBlank(gap)
    ensures SplitKeyValue(key + gap + ":" + rest) == (key, ScalarOf(Strip(rest)))
  {
    hide Strip, LStrip, ScalarOf, IndexOf;
    StripBetween("", key, gap);
    assert "" + key + gap == key + gap;
    KeySplits(key + gap, rest);
  }

  lemma {:induction false} ReadEntry(line: string, text: string)
    requires Strip(line) == text && text != "" && text[0] != '#' && text[0] != '-'
    ensures ReadLine(line)
            == Entry(|line| - |LStrip(line)|, SplitKeyValue(text).0, SplitKeyValue(text).1)
  {
    hide Strip, LStrip, SplitKeyValue;
  }

  lemma {:induction false} BehindDash(sep: string, text: string)
    requires AllBlank(sep) && sep != ""
    ensures var all := "-" + sep + text;
            FirstBlank(all) == 1 && all[2..] == sep[1..] + text + ""
  {
    var all := "-" + sep + text;
    assert all == ['-', sep[0]] + (sep[1..] + text);
    assert all[1..][0] == sep[0];
  }

  /** A list item: a dash, blanks, and the text. A dash without a blank behind it has no value. */
  lemma {:induction false} ItemAsWritten(pad: string, sep: string, text: string, tail: string)
    requires AllBlank(pad) && AllBlank(sep) && AllBlank(tail) && Trimmed(text)
    ensures sep != "" ==> ReadLine(pad + ("-" + sep + text) + tail) == Item(|pad|, Some(ParseValue(text)))
    ensures FirstBlank(text) == |text| ==> ReadLine(pad + ("-" + text) + tail) == Item(|pad|, None)
  {
    hide Strip, LStrip, ParseValue, ScalarOf;
    if sep != "" {
      var all := "-" + sep + text;
      StripBetween(pad, all, tail);
      BehindDash(sep, text);
      StripBetween(sep[1..], text, "");
      assert ScalarOf(text) == Some(ParseValue(text)) by { ScalarIs(text); }
    }
    if FirstBlank(text) == |text| {
      var all := "-" + text;
      StripBetween(pad, all, tail);
      assert all[1..] == text;
      assert FirstBlank(all) == |all|;
    }
  }

  lemma {:induction false} ScalarIs(text: string)
    ensures text != "" ==> ScalarOf(text) == Some(ParseValue(text))
  {
  }

  // ---------------------------------------------------------------- documents

  function WithoutSkips(lines: seq<Line>): seq<Line> {
    if lines == [] then []
    else (if lines[0].Skip? then [] else [lines[0]]) + WithoutSkips(lines[1..])
  }

  /** Blank lines and comments, wherever they stand, make no difference. */
  lemma {:induction false} SkipsDoNotMatter(st: State, lines: seq<Line>)
    requires st.Valid()
    ensures Steps(st, lines) == Steps(st, WithoutSkips(lines))
    decreases |lines|
  {
    if lines != [] {
      hide Step;
      var rest := WithoutSkips(lines[1..]);
      if lines[0].Skip? {
        SkipStep(st);
        assert [] + rest == rest;
        SkipsDoNotMatter(st, lines[1..]);
      } else {
        assert ([lines[0]] + rest)[0] == lines[0] && ([lines[0]] + rest)[1..] == rest;
        if Step(st, lines[0]).Ok? { SkipsDoNotMatter(Step(st, lines[0]).value, lines[1..]); }
      }
    }
  }

  lemma {:induction false} SkipStep(st: State)
    requires st.Valid()
    ensures Step(st, Skip) == Ok(st)
  {
  }

  /** A key among the items of a list is a type error, deeper than the list's own key. */
  lemma {:induction false} KeyAmongItems(
    key: string, n: nat, item: Scalar, m: nat, other: string, scalar: Option<Scalar>)
    requires 0 < n && 0 < m
    ensures Steps(START, [Entry(0, key, None), Item(n, Some(item)), Entry(m, other, scalar)]) == TypeError
  {
    hide Steps;
    var lines := [Entry(0, key, None), Item(n, Some(item)), Entry(m, other, scalar)];
    var s1 := State([HashOf([Field(key, Ref(1))]), HashOf([])], [0, 1], [-1, 0]);
    var s2 := State([HashOf([Field(key, Ref(2))]), HashOf([]), ArrayOf([Plain(item)])], [0, 2], [-1, 0]);
    assert Unwind(START, 0) == START;
    assert Step(START, lines[0]) == Ok(s1) by { KeyOpens(key); }
    assert Unwind(s1, n) == s1;
    assert Step(s1, lines[1]) == Ok(s2) by { ListOpens(key, n, item); }
    assert Unwind(s2, m) == s2;
    OneStep(START, lines);
    assert lines[1..] == [lines[1], lines[2]] && lines[1..][1..] == [lines[2]];
    OneStep(s1, lines[1..]);
    OneStep(s2, [lines[2]]);
  }

  lemma {:induction false} OneStep(st: State, lines: seq<Line>)
    requires st.Valid() && lines != []
    ensures Steps(st, lines)
            == (var r := Step(st, lines[0]); if r.Ok? then Steps(r.value, lines[1..]) else TypeError)
  {
    hide Step;
  }

  lemma {:induction false} ListOpens(key: string, n: nat, item: Scalar)
    requires 0 < n
    ensures Step(State([HashOf([Field(key, Ref(1))]), HashOf([])], [0, 1], [-1, 0]), Item(n, Some(item)))
            == Ok(State([HashOf([Field(key, Ref(2))]), HashOf([]), ArrayOf([Plain(item)])], [0, 2], [-1, 0]))
  {
    var s1 := State([HashOf([Field(key, Ref(1))]), HashOf([])], [0, 1], [-1, 0]);
    assert Unwind(s1, n) == s1;
    PutLast([], key, Ref(1), Ref(2));
    assert [] + [Field(key, Ref(1))] == [Field(key, Ref(1))] && [] + [Field(key, Ref(2))] == [Field(key, Ref(2))];
    var t := ItemTarget(s1);
    assert t.heap == [HashOf([Field(key, Ref(2))]), HashOf([]), ArrayOf([])] && t.stack == [0, 2];
    var items: seq<Cell> := [];
    assert items + [Plain(item)] == [Plain(item)];
    var r := Store(t, n, None, Some(item));
    assert r.heap == [HashOf([Field(key, Ref(2))]), HashOf([]), ArrayOf([Plain(item)])];
  }

  lemma {:induction false} KeyOpens(key: string)
    ensures Step(START, Entry(0, key, None))
            == Ok(State([HashOf([Field(key, Ref(1))]), HashOf([])], [0, 1], [-1, 0]))
  {
    assert Unwind(START, 0) == START;
    var r := Store(START, 0, Some(key), None);
    assert r.heap == [HashOf([Field(key, Ref(1))]), HashOf([])] && r.stack == [0, 1] && r.indents == [-1, 0];
  }

  /** The items of a list at the top of a document are lost: it is read as an empty hash. */
  lemma {:induction false} TopListIsLost(v: Value) returns (r: State)
    requires v.Arr? && WellFormed(v)
    ensures Load(Serialize(v, 0)) == Ok(r) && Holds(r.heap, Ref(0), Hash([]), 0)
  {
    SerializeIsLines(v, 0);
    LinesRead(v, 0);
    SplitOfUnlines(TextLines(v, 0));
    if v.items == [] {
      r := START;
    } else {
      var t := ItemTarget(START);
      ItemsFromTarget(START, [0], [-1], 0, v.items);
      var lost;
      r, lost := ItemsRead(t, [1], [-1], 0, v.items, []);
    }
  }
}
