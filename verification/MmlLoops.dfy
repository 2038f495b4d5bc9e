/** The loop macro of the music language: `[cd]3` stands for its body three times. */
module MmlLoops {
  import opened Decimal

  const MAX_DEPTH := 8

  /** A text with what it stands for, and the index after it; or the exception. */
  datatype Expansion = TooDeep | Expanded(text: string, index: nat)

  function Prepend(head: string, e: Expansion): Expansion {
    if e.TooDeep? then e else e.(text := head + e.text)
  }

  function Repeat(s: string, count: nat): string {
    if count == 0 then "" else s + Repeat(s, count - 1)
  }

  /** What the text from `index` to the end of the enclosing loop stands for, `depth` loops deep. */
  function Meaning(str: string, index: nat, depth: nat): (e: Expansion)
    requires index <= |str|
    ensures e.Expanded? ==> index <= e.index <= |str|
    decreases |str| - index
  {
    if index == |str| then Expanded("", index)
    else match str[index]
      case '[' =>
        if depth + 1 > MAX_DEPTH then TooDeep
        else
          var inner := Meaning(str, index + 1, depth + 1);
          if inner.TooDeep? then inner
          else
            var end := DigitsEnd(str, inner.index);
            Prepend(Repeat(inner.text, DigitsValue(str[inner.index..end])), Meaning(str, end, depth))
      case ']' => Expanded("", index + 1)
      case '|' => Meaning(str, index + 1, depth)
      case c => Prepend([c], Meaning(str, index + 1, depth))
  }

  lemma {:induction false} PrependTwice(a: string, b: string, e: Expansion)
    ensures Prepend(a, Prepend(b, e)) == Prepend(a + b, e)
  {
    assert e.Expanded? ==> a + (b + e.text) == (a + b) + e.text;
  }

  lemma {:induction false} PrependNothing(e: Expansion)
    ensures Prepend("", e) == e
  {
    assert e.Expanded? ==> "" + e.text == e.text;
  }

  lemma {:induction false} PrependTooDeep(a: string)
    ensures Prepend(a, TooDeep) == TooDeep
  {
  }

  lemma {:induction false} PrependEmpty(a: string, index: nat)
    ensures Prepend(a, Expanded("", index)) == Expanded(a, index)
  {
    assert a + "" == a;
  }

  lemma {:induction false} LetterMeans(str: string, index: nat, depth: nat)
    requires index < |str| && str[index] !in {'[', ']', '|'}
    ensures Meaning(str, index, depth) == Prepend([str[index]], Meaning(str, index + 1, depth))
  {
  }

  lemma {:induction false} AtEnd(str: string, depth: nat)
    ensures Meaning(str, |str|, depth) == Expanded("", |str|)
  {
  }

  lemma {:induction false} MarkMeans(str: string, index: nat, depth: nat)
    requires index < |str| && str[index] != '['
    ensures str[index] == '|' ==> Meaning(str, index, depth) == Meaning(str, index + 1, depth)
    ensures str[index] == ']' ==> Meaning(str, index, depth) == Expanded("", index + 1)
  {
  }

  lemma {:induction false} BracketMeans(str: string, index: nat, depth: nat)
    requires index < |str| && str[index] == '['
    ensures depth == MAX_DEPTH ==> Meaning(str, index, depth) == TooDeep
    ensures depth < MAX_DEPTH ==>
      var inner := Meaning(str, index + 1, depth + 1);
      if inner.TooDeep? then Meaning(str, index, depth) == TooDeep
      else
        var end := DigitsEnd(str, inner.index);
        var played := Repeat(inner.text, DigitsValue(str[inner.index..end]));
        Meaning(str, index, depth) == Prepend(played, Meaning(str, end, depth))
  {
    hide Repeat, DigitsValue, DigitsEnd;
  }

  /** The digits of a loop count. */
  method ReadCount(str: string, from: nat) returns (count: nat, index: nat)
    requires from <= |str|
    ensures index == DigitsEnd(str, from) && count == DigitsValue(str[from..index])
  {
    count, index := 0, from;
    while index < |str| && IsDigit(str[index])
      invariant from <= index <= |str| && AllDigits(str[from..index]) && count == DigitsValue(str[from..index])
      invariant DigitsEnd(str, index) == DigitsEnd(str, from)
    {
      assert str[from..index + 1] == str[from..index] + [str[index]];
      count := count * 10 + (str[index] as int - '0' as int);
      index := index + 1;
    }
  }

  /** `MML#expand`. */
  method Expand(str: string, start: nat, depth: nat) returns (e: Expansion)
    requires start <= |str|
    ensures e == if depth > MAX_DEPTH then TooDeep else Meaning(str, start, depth)
    decreases |str| - start
  {
    hide *;
    if depth > MAX_DEPTH { return TooDeep; }
    var result, index := "", start;
    ghost var whole := Meaning(str, start, depth);
    PrependNothing(whole);
    while index < |str|
      invariant start <= index <= |str|
      invariant whole == Prepend(result, Meaning(str, index, depth))
    {
      var c := str[index];
      if c == '[' {
        BracketMeans(str, index, depth);
        var inner := Expand(str, index + 1, depth + 1);
        if inner.TooDeep? {
          PrependTooDeep(result);
          return TooDeep;
        }
        var count, end := ReadCount(str, inner.index);
        var played := Repeat(inner.text, count);
        assert Meaning(str, index, depth) == Prepend(played, Meaning(str, end, depth));
        PrependTwice(result, played, Meaning(str, end, depth));
        assert whole == Prepend(result + played, Meaning(str, end, depth));
        result, index := result + played, end;
      } else if c == ']' {
        MarkMeans(str, index, depth);
        PrependEmpty(result, index + 1);
        return Expanded(result, index + 1);
      } else if c == '|' {
        MarkMeans(str, index, depth);
        assert whole == Prepend(result, Meaning(str, index + 1, depth));
        index := index + 1;
      } else {
        LetterMeans(str, index, depth);
        PrependTwice(result, [c], Meaning(str, index + 1, depth));
        assert whole == Prepend(result + [c], Meaning(str, index + 1, depth));
        result, index := result + [c], index + 1;
      }
    }
    AtEnd(str, depth);
    PrependEmpty(result, index);
    return Expanded(result, index);
  }

  // ---------------------------------------------------------------- printed loops

  datatype Count = Absent | Given(n: nat)

  /** A track as a composer thinks of it. */
  datatype Score =
    | End
    | Bar(rest: Score)
    | Letters(letters: string, rest: Score)
    | Loop(body: Score, count: Count, rest: Score)

  function Print(s: Score): string {
    match s
    case End => ""
    case Bar(rest) => "|" + Print(rest)
    case Letters(letters, rest) => letters + Print(rest)
    case Loop(body, count, rest) => ("[" + Print(body) + "]") + (Numeral(count) + Print(rest))
  }

  function Numeral(c: Count): (s: string)
    ensures AllDigits(s)
  {
    if c.Given? then Digits(c.n) else ""
  }

  lemma {:induction false} CountRead(c: Count)
    ensures DigitsValue(Numeral(c)) == if c.Given? then c.n else 0
  {
    if c.Given? { DigitsRead(c.n); }
  }

  /** All loops played out; a loop without a count is not played at all. */
  function Unroll(s: Score): string {
    match s
    case End => ""
    case Bar(rest) => Unroll(rest)
    case Letters(letters, rest) => letters + Unroll(rest)
    case Loop(body, count, rest) => Repeat(Unroll(body), if count.Given? then count.n else 0) + Unroll(rest)
  }

  function Depth(s: Score): nat {
    match s
    case End => 0
    case Bar(rest) => Depth(rest)
    case Letters(_, rest) => Depth(rest)
    case Loop(body, _, rest) => if 1 + Depth(body) < Depth(rest) then Depth(rest) else 1 + Depth(body)
  }

  predicate Plain(s: string) {
    forall i :: 0 <= i < |s| ==> s[i] !in {'[', ']', '|'}
  }

  /** Letters are none of the macro characters, and no digit stands directly after a loop. */
  predicate Printable(s: Score) {
    match s
    case End => true
    case Bar(rest) => Printable(rest)
    case Letters(letters, rest) => Plain(letters) && Printable(rest)
    case Loop(body, _, rest) => Printable(body) && Printable(rest) && (Print(rest) == "" || !IsDigit(Print(rest)[0]))
  }

  /** A part of the text that ends where its loop ends, or with the text. */
  predicate StandsAt(part: string, str: string, index: nat) {
    && index + |part| <= |str| && str[index..index + |part|] == part
    && (index + |part| == |str| || str[index + |part|] == ']')
  }

  lemma {:induction false} LettersMean(letters: string, str: string, index: nat, depth: nat)
    requires index + |letters| <= |str| && str[index..index + |letters|] == letters && Plain(letters)
    ensures Meaning(str, index, depth) == Prepend(letters, Meaning(str, index + |letters|, depth))
  {
    hide Meaning;
    if letters != "" {
      assert str[index] == letters[0];
      assert str[index + 1..index + |letters|] == letters[1..];
      LettersMean(letters[1..], str, index + 1, depth);
      LetterMeans(str, index, depth);
      PrependTwice([letters[0]], letters[1..], Meaning(str, index + |letters|, depth));
      assert [letters[0]] + letters[1..] == letters;
    }
  }

  lemma {:induction false} Slices(str: string, index: nat, a: string, b: string)
    requires index + |a + b| <= |str| && str[index..index + |a + b|] == a + b
    ensures str[index..index + |a|] == a && str[index + |a|..index + |a| + |b|] == b
  {
    assert str[index..index + |a|] == (a + b)[..|a|];
    assert str[index + |a|..index + |a| + |b|] == (a + b)[|a|..];
  }

  lemma {:induction false} SplitPart(str: string, index: nat, a: string, b: string)
    requires StandsAt(a + b, str, index)
    ensures str[index..index + |a|] == a && StandsAt(b, str, index + |a|)
  {
    Slices(str, index, a, b);
  }

  /** Where the pieces of a printed loop lie. */
  lemma {:induction false} LoopPieces(str: string, index: nat, body: string, numeral: string, rest: string)
    returns (close: nat, after: nat)
    requires StandsAt(("[" + body + "]") + (numeral + rest), str, index)
    requires AllDigits(numeral) && (rest == "" || !IsDigit(rest[0]))
    ensures close == index + 1 + |body| && after == close + 1 + |numeral|
    ensures str[index] == '[' && StandsAt(body, str, index + 1) && close < |str|
    ensures StandsAt(rest, str, after)
    ensures str[close + 1..after] == numeral && DigitsEnd(str, close + 1) == after
  {
    hide DigitsEnd, AllDigits;
    close := index + 1 + |body|;
    after := close + 1 + |numeral|;
    SplitPart(str, index, "[" + body + "]", numeral + rest);
    Slices(str, index, "[" + body, "]");
    Slices(str, index, "[", body);
    assert str[index] == str[index..index + 1][0] && str[close] == str[close..close + 1][0];
    SplitPart(str, close + 1, numeral, rest);
    if rest != "" { assert str[after] == str[after..after + |rest|][0]; }
    DigitsEndAt(str, close + 1, after);
  }

  /** What is proved of a printed part of a text. */
  predicate MeansScore(s: Score, str: string, index: nat, depth: nat)
    requires index + |Print(s)| <= |str|
  {
    var end := index + |Print(s)|;
    Meaning(str, index, depth) ==
      if depth + Depth(s) > MAX_DEPTH then TooDeep else Expanded(Unroll(s), if end == |str| then end else end + 1)
  }

  lemma {:induction false} EndMeans(s: Score, str: string, index: nat, depth: nat)
    requires s.End? && StandsAt("", str, index) && depth <= MAX_DEPTH
    ensures MeansScore(s, str, index, depth)
  {
  }

  lemma {:induction false} BarMeans(s: Score, str: string, index: nat, depth: nat)
    requires s.Bar? && index + |Print(s)| <= |str| && str[index..index + 1] == "|"
    requires MeansScore(s.rest, str, index + 1, depth)
    ensures MeansScore(s, str, index, depth)
  {
    hide Meaning;
    assert str[index] == str[index..index + 1][0];
    MarkMeans(str, index, depth);
  }

  lemma {:induction false} LettersScoreMeans(s: Score, str: string, index: nat, depth: nat)
    requires s.Letters? && index + |Print(s)| <= |str| && Plain(s.letters)
    requires str[index..index + |s.letters|] == s.letters && MeansScore(s.rest, str, index + |s.letters|, depth)
    ensures MeansScore(s, str, index, depth)
  {
    hide Meaning;
    LettersMean(s.letters, str, index, depth);
  }

  lemma {:induction false} LoopMeans(s: Score, str: string, index: nat, depth: nat, close: nat, after: nat)
    requires s.Loop? && depth <= MAX_DEPTH && after <= |str| && close == index + 1 + |Print(s.body)|
    requires after == close + 1 + |Numeral(s.count)| && after + |Print(s.rest)| <= |str|
    requires str[index] == '[' && str[close + 1..after] == Numeral(s.count) && DigitsEnd(str, close + 1) == after
    requires depth + 1 <= MAX_DEPTH ==> MeansScore(s.body, str, index + 1, depth + 1)
    requires MeansScore(s.rest, str, after, depth) && |Print(s)| == after + |Print(s.rest)| - index
    ensures MeansScore(s, str, index, depth)
  {
    hide DigitsEnd, Repeat, Meaning, DigitsValue, Print, Numeral, Digits, AllDigits;
    BracketMeans(str, index, depth);
    if depth < MAX_DEPTH && depth + 1 + Depth(s.body) <= MAX_DEPTH {
      assert Meaning(str, index + 1, depth + 1) == Expanded(Unroll(s.body), close + 1);
      assert DigitsValue(Numeral(s.count)) == if s.count.Given? then s.count.n else 0 by { CountRead(s.count); }
    }
  }

  lemma {:induction false} PrintedMeans(s: Score, str: string, index: nat, depth: nat)
    requires Printable(s) && StandsAt(Print(s), str, index) && depth <= MAX_DEPTH
    ensures MeansScore(s, str, index, depth)
    decreases s
  {
    hide Meaning, Depth, Unroll, MeansScore, DigitsEnd;
    match s
    case End =>
      EndMeans(s, str, index, depth);
    case Bar(rest) =>
      SplitPart(str, index, "|", Print(rest));
      PrintedMeans(rest, str, index + 1, depth);
      BarMeans(s, str, index, depth);
    case Letters(letters, rest) =>
      SplitPart(str, index, letters, Print(rest));
      PrintedMeans(rest, str, index + |letters|, depth);
      LettersScoreMeans(s, str, index, depth);
    case Loop(body, count, rest) =>
      var close, after := LoopPieces(str, index, Print(body), Numeral(count), Print(rest));
      if depth + 1 <= MAX_DEPTH { PrintedMeans(body, str, index + 1, depth + 1); }
      PrintedMeans(rest, str, after, depth);
      LoopMeans(s, str, index, depth, close, after);
  }

  /** Expansion inverts the printer exactly up to the nesting bound: at most eight deep it gives the
      score played out, and deeper it raises. */
  lemma {:induction false} ExpandPrinted(s: Score)
    requires Printable(s)
    ensures Meaning(Print(s), 0, 0) == if Depth(s) <= 8 then Expanded(Unroll(s), |Print(s)|) else TooDeep
  {
    assert Print(s)[0..0 + |Print(s)|] == Print(s);
    PrintedMeans(s, Print(s), 0, 0);
  }

  lemma {:induction false} RepeatPlain(s: string, count: nat)
    requires Plain(s)
    ensures Plain(Repeat(s, count))
  {
    if count > 0 { RepeatPlain(s, count - 1); }
  }

  /** Whatever the text, balanced or not, no macro character is left in it. */
  lemma {:induction false} MeaningIsPlain(str: string, index: nat, depth: nat)
    requires index <= |str| && Meaning(str, index, depth).Expanded?
    ensures Plain(Meaning(str, index, depth).text)
    decreases |str| - index
  {
    if index < |str| {
      if str[index] == '[' {
        MeaningIsPlain(str, index + 1, depth + 1);
        var inner := Meaning(str, index + 1, depth + 1);
        var end := DigitsEnd(str, inner.index);
        RepeatPlain(inner.text, DigitsValue(str[inner.index..end]));
        MeaningIsPlain(str, end, depth);
      } else if str[index] != ']' {
        MeaningIsPlain(str, index + 1, depth);
      }
    }
  }
}
