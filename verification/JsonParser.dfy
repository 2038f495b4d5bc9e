/** `JSON::Parser`, total on every input, and the round trip with the generator. */
module JsonParser {
  import opened Options
  import opened Hashes
  import opened Decimal
  import opened JsonText

  datatype Outcome<T> = Failed(error: Error) | Done(value: T, next: nat)

  // ---------------------------------------------------------------- what the text says

  function Escaped(c: char): Option<string> {
    match c
    case '"' => Some("\"")
    case '\\' => Some("\\")
    case '/' => Some("/")
    case 'b' => Some([8 as char])
    case 'f' => Some([12 as char])
    case 'n' => Some("\n")
    case 'r' => Some("\r")
    case 't' => Some("\t")
    case 'u' => Some("")
    case _ => None
  }

  /** `replace_escape_sequence`. */
  function Unescaped(raw: string): Option<string> {
    if raw == "" then Some("")
    else if raw[0] != '\\' then
      var rest := Unescaped(raw[1..]);
      if rest.None? then None else Some([raw[0]] + rest.value)
    else if |raw| == 1 || Escaped(raw[1]).None? then None
    else
      var rest := Unescaped(raw[2..]);
      if rest.None? then None else Some(Escaped(raw[1]).value + rest.value)
  }

  /** `parse_string`: whatever stands at i counts as the opening quote. */
  function StringAt(s: string, i: nat): (r: Outcome<string>)
    ensures r.Done? ==> i + 1 < r.next <= |s|
  {
    var end := StringEnd(s, i + 1);
    if end == |s| then Failed(ParserError)
    else
      var text := Unescaped(s[i + 1..end]);
      if text.None? then Failed(ParserError) else Done(text.value, end + 1)
  }

  function FractionEnd(s: string, i: nat): (j: nat)
    requires i <= |s|
    ensures i <= j <= |s|
  {
    if CharAt(s, i, '.') then DigitsEnd(s, i + 1) else i
  }

  function ExponentEnd(s: string, i: nat): (j: nat)
    requires i <= |s|
    ensures i <= j <= |s|
  {
    if CharAt(s, i, 'e') || CharAt(s, i, 'E') then
      DigitsEnd(s, if CharAt(s, i + 1, '+') || CharAt(s, i + 1, '-') then i + 2 else i + 1)
    else i
  }

  function Signed(negative: bool, n: int): int {
    if negative then -n else n
  }

  /** `parse_number`. */
  function NumberAt(s: string, i: nat): (r: Outcome<Value>)
    requires i < |s|
    ensures r.Done? && i <= r.next <= |s| && (s[i] == '-' || IsDigit(s[i]) ==> i < r.next)
  {
    var start := if s[i] == '-' then i + 1 else i;
    var whole := DigitsEnd(s, start);
    var end := ExponentEnd(s, FractionEnd(s, whole));
    if end == whole then
      Done(Int(Signed(s[i] == '-', DigitsValue(s[start..whole]))), end)
    else Done(Float(s[i..end]), end)
  }

  /** `parse`. */
  function ValueAt(s: string, i: nat): (r: Outcome<Value>)
    ensures r.Done? ==> i < r.next <= |s|
    decreases |s| - i, 0
  {
    if i >= |s| then Failed(ParserError)
    else match s[i]
      case '{' =>
        var j := SkipSpaces(s, i + 1);
        if CharAt(s, j, '}') then Done(Obj([]), j + 1) else EntriesAt(s, j, [])
      case '[' =>
        var j := SkipSpaces(s, i + 1);
        if CharAt(s, j, ']') then Done(Arr([]), j + 1) else ItemsAt(s, j, [])
      case '"' =>
        var text := StringAt(s, i);
        if text.Failed? then Failed(text.error) else Done(Str(text.value), text.next)
      case 't' => WordAt(s, i, "true", Bool(true))
      case 'f' => WordAt(s, i, "false", Bool(false))
      case 'n' => WordAt(s, i, "null", Null)
      case c => if c == '-' || IsDigit(c) then NumberAt(s, i) else Failed(ParserError)
  }

  function WordAt(s: string, i: nat, word: string, v: Value): Outcome<Value> {
    if StandsAt(word, s, i) then Done(v, i + |word|) else Failed(JsonError)
  }

  /** One entry of an object. */
  function EntryAt(s: string, i: nat): (r: Outcome<Field>)
    ensures r.Done? ==> i < r.next <= |s|
    decreases |s| - i, 1
  {
    var key := StringAt(s, i);
    if key.Failed? then Failed(key.error)
    else
      var colon := SkipSpaces(s, key.next);
      if !CharAt(s, colon, ':') then Failed(JsonError)
      else
        var v := ValueAt(s, SkipSpaces(s, colon + 1));
        if v.Failed? then Failed(v.error) else Done(Field(key.value, v.value), v.next)
  }

  /** The entries of an object from i on, behind those already read. */
  function EntriesAt(s: string, i: nat, entries: seq<Field>): (r: Outcome<Value>)
    ensures r.Done? ==> i < r.next <= |s|
    decreases |s| - i, 2
  {
    var e := EntryAt(s, i);
    if e.Failed? then Failed(e.error)
    else
      var more, all := SkipSpaces(s, e.next), Put(entries, e.value.key, e.value.value);
      if CharAt(s, more, '}') then Done(Obj(all), more + 1)
      else if CharAt(s, more, ',') then EntriesAt(s, SkipSpaces(s, more + 1), all)
      else Failed(JsonError)
  }

  /** The items of an array from i on, behind those already read. */
  function ItemsAt(s: string, i: nat, items: seq<Value>): (r: Outcome<Value>)
    ensures r.Done? ==> i < r.next <= |s|
    decreases |s| - i, 1
  {
    var v := ValueAt(s, i);
    if v.Failed? then v
    else
      var more, all := SkipSpaces(s, v.next), items + [v.value];
      if CharAt(s, more, ']') then Done(Arr(all), more + 1)
      else if CharAt(s, more, ',') then ItemsAt(s, SkipSpaces(s, more + 1), all)
      else Failed(JsonError)
  }

  // ---------------------------------------------------------------- the parser

  class Parser {
    const json: string
    var index: nat

    constructor (json: string)
      ensures this.json == json && index == 0
    {
      this.json := json;
      index := 0;
    }

    method ReplaceEscapeSequence(raw: string) returns (text: Option<string>)
      ensures text == Unescaped(raw)
    {
      var result, i := "", 0;
      ghost var all := Unescaped(raw);
      assert raw[0..] == raw;
      while i < |raw|
        invariant i <= |raw|
        invariant Unescaped(raw[i..]).None? <==> all.None?
        invariant all.Some? ==> all.value == result + Unescaped(raw[i..]).value
      {
        var c := raw[i];
        assert raw[i..][1..] == raw[i + 1..];
        if c == '\\' {
          i := i + 1;
          if i == |raw| || Escaped(raw[i]).None? { return None; }
          assert raw[i - 1..][2..] == raw[i + 1..];
          result := result + Escaped(raw[i]).value;
        } else {
          result := result + [c];
        }
        i := i + 1;
      }
      assert raw[|raw|..] == "" && result + "" == result;
      return Some(result);
    }

    method ParseString() returns (r: Outcome<string>)
      modifies this
      ensures r == StringAt(json, old(index)) && (r.Done? ==> index == r.next)
    {
      hide Unescaped, StringEnd;
      index := index + 1;
      ghost var start := index;
      var result := "";
      while index >= |json| || json[index] != '"'
        invariant start <= index && StringEnd(json, index) == StringEnd(json, start)
        invariant start <= |json| ==> index <= |json| && result == json[start..index]
        decreases |json| - index
      {
        StringStep(json, index);
        if index < |json| && json[index] == '\\' {
          var snip := if index + 2 <= |json| then json[index..index + 2] else json[index..];
          SliceOn(json, start, index, index + |snip|);
          result := result + snip;
          index := index + |snip|;
        } else {
          if index < |json| {
            SliceOn(json, start, index, index + 1);
            assert json[index..index + 1] == [json[index]];
            result := result + [json[index]];
          }
          index := index + 1;
        }
        StringStep(json, index);
        if index >= |json| { return Failed(ParserError); }
      }
      StringStep(json, index);
      index := index + 1;
      var text := ReplaceEscapeSequence(result);
      return if text.None? then Failed(ParserError) else Done(text.value, index);
    }

    method SkipDigits()
      requires index <= |json|
      modifies this
      ensures index == DigitsEnd(json, old(index))
    {
      while index < |json| && IsDigit(json[index])
        invariant index <= |json| && DigitsEnd(json, index) == DigitsEnd(json, old(index))
      {
        index := index + 1;
      }
    }

    method ParseInteger(start: nat, end: nat) returns (n: int)
      requires start < end <= |json| && AllDigits(json[if json[start] == '-' then start + 1 else start..end])
      ensures n == Signed(json[start] == '-', DigitsValue(json[if json[start] == '-' then start + 1 else start..end]))
    {
      var result := 0;
      var isNegative := json[start] == '-';
      var from := if isNegative then start + 1 else start;
      for i := from to end
        invariant AllDigits(json[from..i]) && result == DigitsValue(json[from..i])
      {
        assert IsDigit(json[from..end][i - from]);
        assert json[from..i + 1] == json[from..i] + [json[i]];
        result := result * 10 + (json[i] as int - '0' as int);
      }
      n := if isNegative then -result else result;
    }

    method SkipFraction() returns (found: bool)
      requires index <= |json|
      modifies this
      ensures index == FractionEnd(json, old(index)) && (found <==> old(index) < index)
    {
      found := index < |json| && json[index] == '.';
      if found {
        index := index + 1;
        SkipDigits();
      }
    }

    method SkipExponent() returns (found: bool)
      requires index <= |json|
      modifies this
      ensures index == ExponentEnd(json, old(index)) && (found <==> old(index) < index)
    {
      found := index < |json| && (json[index] == 'e' || json[index] == 'E');
      if found {
        index := index + 1;
        if index < |json| && (json[index] == '+' || json[index] == '-') { index := index + 1; }
        SkipDigits();
      }
    }

    method ParseNumber() returns (r: Outcome<Value>)
      requires index < |json| && (json[index] == '-' || IsDigit(json[index]))
      modifies this
      ensures r == NumberAt(json, old(index)) && r.Done? && index == r.next
    {
      hide FractionEnd, ExponentEnd, DigitsEnd, DigitsValue;
      var start := index;
      if json[index] == '-' { index := index + 1; }
      SkipDigits();
      var hasFraction := SkipFraction();
      var hasExponent := SkipExponent();
      if hasFraction || hasExponent {
        r := Done(Float(json[start..index]), index);
      } else {
        NumberNotEmpty(json, start);
        var n := ParseInteger(start, index);
        r := Done(Int(n), index);
      }
    }

    method Parse() returns (r: Outcome<Value>)
      modifies this
      ensures r == ValueAt(json, old(index)) && (r.Done? ==> index == r.next)
      decreases |json| - index, 1
    {
      hide Put, StringAt, NumberAt, EntriesAt, ItemsAt;
      if index >= |json| { return Failed(ParserError); }
      var c := json[index];
      if c == '{' {
        r := ParseObject();
      } else if c == '[' {
        r := ParseArray();
      } else if c == '"' {
        var text := ParseString();
        r := if text.Failed? then Failed(text.error) else Done(Str(text.value), text.next);
      } else if c == '-' || IsDigit(c) {
        r := ParseNumber();
      } else if c == 't' {
        r := ParseWord("true", Bool(true));
      } else if c == 'f' {
        r := ParseWord("false", Bool(false));
      } else if c == 'n' {
        r := ParseWord("null", Null);
      } else {
        return Failed(ParserError);
      }
    }

    method ParseWord(word: string, v: Value) returns (r: Outcome<Value>)
      requires index < |json|
      modifies this
      ensures r == WordAt(json, old(index), word, v) && (r.Done? ==> index == r.next)
    {
      var ok;
      ok, index := ExpectSequence(json, index, word);
      r := if ok then Done(v, index) else Failed(JsonError);
    }

    /** The part of `parse_object` up to the assignment. */
    method ParseEntry() returns (r: Outcome<Field>)
      modifies this
      ensures r == EntryAt(json, old(index)) && (r.Done? ==> index == r.next)
      decreases |json| - index, 2
    {
      hide StringAt, ValueAt;
      var key := ParseString();
      if key.Failed? { return Failed(key.error); }
      index := SkipWhitespace(json, index);
      var colon;
      colon, index := Expect(json, index, ':');
      if !colon { return Failed(JsonError); }
      index := SkipWhitespace(json, index);
      var value := Parse();
      if value.Failed? { return Failed(value.error); }
      return Done(Field(key.value, value.value), index);
    }

    method ParseObject() returns (r: Outcome<Value>)
      requires CharAt(json, index, '{')
      modifies this
      ensures r == ValueAt(json, old(index)) && (r.Done? ==> index == r.next)
      decreases |json| - index, 0
    {
      hide Put, StringAt, NumberAt, EntryAt;
      ghost var start := index;
      var result: seq<Field> := [];
      index := index + 1;
      index := SkipWhitespace(json, index);
      if !CharAt(json, index, '}') {
        ghost var all := ValueAt(json, start);
        assert all == EntriesAt(json, index, []);
        while true
          invariant start < index && index <= |json| && all == EntriesAt(json, index, result)
          decreases |json| - index
        {
          var entry := ParseEntry();
          if entry.Failed? { return Failed(entry.error); }
          result := Put(result, entry.value.key, entry.value.value);
          index := SkipWhitespace(json, index);
          if CharAt(json, index, '}') { break; }
          var comma;
          comma, index := Expect(json, index, ',');
          if !comma { return Failed(JsonError); }
          index := SkipWhitespace(json, index);
        }
        index := index + 1;
        return Done(Obj(result), index);
      }
      index := index + 1;
      return Done(Obj([]), index);
    }

    method ParseArray() returns (r: Outcome<Value>)
      requires CharAt(json, index, '[')
      modifies this
      ensures r == ValueAt(json, old(index)) && (r.Done? ==> index == r.next)
      decreases |json| - index, 0
    {
      hide Put, StringAt, NumberAt, EntryAt;
      ghost var start := index;
      var result: seq<Value> := [];
      index := index + 1;
      index := SkipWhitespace(json, index);
      if !CharAt(json, index, ']') {
        ghost var all := ValueAt(json, start);
        assert all == ItemsAt(json, index, []);
        while true
          invariant start < index && index <= |json| && all == ItemsAt(json, index, result)
          decreases |json| - index
        {
          var value := Parse();
          if value.Failed? { return value; }
          result := result + [value.value];
          index := SkipWhitespace(json, index);
          if CharAt(json, index, ']') { break; }
          var comma;
          comma, index := Expect(json, index, ',');
          if !comma { return Failed(JsonError); }
          index := SkipWhitespace(json, index);
        }
        index := index + 1;
        return Done(Arr(result), index);
      }
      index := index + 1;
      return Done(Arr([]), index);
    }
  }

  lemma {:induction false} SliceOn(s: string, a: nat, b: nat, c: nat)
    requires a <= b <= c <= |s|
    ensures s[a..b] + s[b..c] == s[a..c]
  {
  }

  lemma {:induction false} StringStep(s: string, i: nat)
    ensures StringEnd(s, i) == if i >= |s| then |s| else if s[i] == '"' then i
                               else StringEnd(s, if s[i] == '\\' then i + 2 else i + 1)
  {
  }

  lemma {:induction false} NumberNotEmpty(s: string, i: nat)
    requires i < |s| && (s[i] == '-' || IsDigit(s[i]))
    ensures i < DigitsEnd(s, if s[i] == '-' then i + 1 else i)
  {
  }
}
