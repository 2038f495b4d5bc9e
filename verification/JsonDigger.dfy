/** `JSON::Digger`: parts of a document are found by scanning, without building the whole. */
module JsonDigger {
  import opened Options
  import opened Hashes
  import opened Decimal
  import opened JsonText
  import opened JsonParser
  import Blanks

  datatype Kind = Object | Array

  /** Where a scan stops, with the stack then. */
  datatype Scan = Bad(error: Error) | Passed(index: nat, stack: seq<Kind>)

  /** What looking for a key gives: where its value starts and stops, or no key was asked for. */
  datatype Search = Wrong(error: Error) | Found(start: nat, stop: nat) | Ran(index: nat, stack: seq<Kind>)

  function Left(s: string, i: nat): nat {
    if i < |s| then |s| - i else 0
  }

  function Pop(stack: seq<Kind>): seq<Kind> {
    if stack == [] then [] else stack[..|stack| - 1]
  }

  predicate TopIsObject(stack: seq<Kind>) {
    stack != [] && stack[|stack| - 1] == Object
  }

  predicate NumberChar(c: char) {
    c == '-' || c == '.' || c == 'e' || c == 'E' || IsDigit(c)
  }

  /** `dig_number`. */
  function NumberStop(s: string, i: nat): (j: nat)
    ensures i <= j && (i < |s| && NumberChar(s[i]) ==> i < j)
    decreases |s| - i
  {
    if i < |s| && NumberChar(s[i]) then NumberStop(s, i + 1) else i
  }

  /** `dig_string`. */
  function DugString(s: string, i: nat): (r: Outcome<string>)
    ensures r.Done? ==> i < |s| && i + 1 < r.next <= |s|
  {
    var j := SkipSpaces(s, i);
    if !CharAt(s, j, '"') then Failed(JsonError)
    else
      var end := StringEnd(s, j + 1);
      if end == |s| then Failed(DiggerError) else Done(s[j + 1..end], end + 1)
  }

  /** A key and its colon. */
  function DugKey(s: string, i: nat): (r: Outcome<string>)
    ensures r.Done? ==> i < |s| && i + 1 < r.next <= |s|
  {
    var k := DugString(s, i);
    if k.Failed? then k
    else
      var colon := SkipSpaces(s, k.next);
      if CharAt(s, colon, ':') then Done(k.value, colon + 1) else Failed(JsonError)
  }

  function PassWord(s: string, i: nat, word: string, stack: seq<Kind>): Scan {
    if StandsAt(word, s, i) then Passed(i + |word|, stack) else Bad(JsonError)
  }

  /** `dig_value`. */
  function PassValue(s: string, i: nat, stack: seq<Kind>): (r: Scan)
    ensures r.Passed? ==> i < r.index
    decreases Left(s, i), 3
  {
    var j := SkipSpaces(s, i);
    if j >= |s| then Passed(j + 1, stack)
    else match s[j]
      case '{' =>
        var r := SearchObject(s, j, None, stack);
        if r.Ran? then Passed(r.index, r.stack) else if r.Wrong? then Bad(r.error) else Passed(r.stop, stack)
      case '[' => PassArray(s, j, stack)
      case '"' =>
        var r := DugString(s, j);
        if r.Failed? then Bad(r.error) else Passed(r.next, stack)
      case 't' => PassWord(s, j, "true", stack)
      case 'f' => PassWord(s, j, "false", stack)
      case 'n' => PassWord(s, j, "null", stack)
      case c => Passed(if c == '-' || IsDigit(c) then NumberStop(s, j) else j + 1, stack)
  }

  /** `dig_object`. */
  function SearchObject(s: string, i: nat, key: Option<string>, stack: seq<Kind>): (r: Search)
    ensures r.Ran? ==> i < r.index && key == None
    ensures r.Found? ==> i < r.start < r.stop && key != None
    decreases Left(s, i), 2
  {
    var j := SkipSpaces(s, i);
    if !CharAt(s, j, '{') then Wrong(JsonError) else SearchEntries(s, j + 1, key, stack + [Object])
  }

  /** The object is over. */
  function Over(key: Option<string>, index: nat, stack: seq<Kind>): (r: Search)
    ensures r.Ran? ==> key == None && r.index == index
    ensures !r.Found?
  {
    if key == None then Ran(index, stack) else Wrong(DiggerError)
  }

  function NotFound(key: Option<string>): Option<Error> {
    if key.Some? then Some(DiggerError) else None
  }

  function SearchEntries(s: string, i: nat, key: Option<string>, stack: seq<Kind>): (r: Search)
    ensures r.Ran? ==> i <= r.index && key == None
    ensures r.Found? ==> i < r.start < r.stop && key != None
    decreases Left(s, i), 4
  {
    if i >= |s| then Over(key, i, stack)
    else if s[i] == '}' && TopIsObject(stack) then Over(key, i + 1, Pop(stack))
    else
      var k := DugKey(s, if s[i] == '}' then i + 1 else i);
      if k.Failed? then Wrong(k.error)
      else
        var v := PassValue(s, k.next, stack);
        if v.Bad? then Wrong(v.error)
        else if key == Some(k.value) then Found(k.next, v.index)
        else SearchMore(s, v.index, key, v.stack)
  }

  /** What follows an entry. */
  function SearchMore(s: string, i: nat, key: Option<string>, stack: seq<Kind>): (r: Search)
    ensures r.Ran? ==> i < r.index && key == None
    ensures r.Found? ==> i < r.start < r.stop && key != None
    decreases Left(s, i), 5
  {
    var more := SkipSpaces(s, i);
    if CharAt(s, more, '}') then Over(key, more + 1, Pop(stack))
    else if CharAt(s, more, ',') then SearchEntries(s, SkipSpaces(s, more + 1), key, stack)
    else Wrong(JsonError)
  }

  lemma {:induction false} SearchEnd(s: string, i: nat, key: Option<string>, stack: seq<Kind>)
    requires |s| <= i
    ensures SearchEntries(s, i, key, stack) == Over(key, i, stack)
  {
  }

  lemma {:induction false} SearchStep(s: string, i: nat, key: Option<string>, stack: seq<Kind>)
    requires i < |s|
    ensures var all := SearchEntries(s, i, key, stack);
            if s[i] == '}' && TopIsObject(stack) then all == Over(key, i + 1, Pop(stack))
            else
              var k := DugKey(s, if s[i] == '}' then i + 1 else i);
              if k.Failed? then all == Wrong(k.error)
              else
                var v := PassValue(s, k.next, stack);
                all == if v.Bad? then Wrong(v.error)
                       else if key == Some(k.value) then Found(k.next, v.index)
                       else SearchMore(s, v.index, key, v.stack)
  {
    hide DugKey, PassValue, SearchMore;
  }

  /** `dig_array` without a position. */
  function PassArray(s: string, i: nat, stack: seq<Kind>): (r: Scan)
    ensures r.Passed? ==> i < r.index
    decreases Left(s, i), 2
  {
    var j := SkipSpaces(s, i);
    if !CharAt(s, j, '[') then Bad(JsonError) else PassItems(s, SkipSpaces(s, j + 1), stack + [Array])
  }

  function PassItems(s: string, i: nat, stack: seq<Kind>): (r: Scan)
    ensures r.Passed? ==> i <= r.index
    decreases Left(s, i), 4
  {
    if i >= |s| then Passed(i, stack)
    else if s[i] == ']' then Passed(i + 1, stack)
    else if s[i] == ',' then PassItems(s, i + 1, stack)
    else
      var v := PassValue(s, i, stack);
      if v.Bad? then v else PassItems(s, v.index, v.stack)
  }

  lemma {:induction false} PassItemsStep(s: string, i: nat, stack: seq<Kind>)
    ensures var all := PassItems(s, i, stack);
            if i >= |s| then all == Passed(i, stack)
            else if s[i] == ']' then all == Passed(i + 1, stack)
            else if s[i] == ',' then all == PassItems(s, i + 1, stack)
            else
              var v := PassValue(s, i, stack);
              all == if v.Bad? then v else PassItems(s, v.index, v.stack)
  {
    hide PassValue;
  }

  function Slice(s: string, from: nat, to: nat): string {
    if from > |s| || to < from then "" else s[from..if to < |s| then to else |s|]
  }

  datatype Dug = Dug(json: string) | Missed(error: Error)

  /** `dig` with string keys. */
  function DigKeys(json: string, keys: seq<string>): Dug
    decreases |keys|
  {
    if keys == [] then Dug(json)
    else
      var r := SearchObject(json, 0, Some(keys[0]), []);
      if r.Found? then DigKeys(Blanks.Strip(Slice(json, r.start, r.stop)), keys[1..])
      else if r.Wrong? then Missed(r.error) else Missed(DiggerError)
  }

  class Digger {
    var json: string
    var startIndex: nat
    var index: nat
    var stack: seq<Kind>

    constructor (json: string)
      ensures this.json == json && startIndex == index == 0 && stack == []
    {
      this.json := json;
      startIndex, index, stack := 0, 0, [];
    }

    method DigString() returns (r: Outcome<string>)
      modifies this`index
      ensures r == DugString(json, old(index)) && (r.Done? ==> index == r.next)
    {
      index := SkipWhitespace(json, index);
      var quote;
      quote, index := Expect(json, index, '"');
      if !quote { return Failed(JsonError); }
      var start := index;
      while index < |json|
        invariant start <= index && StringEnd(json, index) == StringEnd(json, start)
        decreases |json| - index
      {
        if json[index] == '\\' {
          index := index + 2;
        } else if json[index] == '"' {
          var text := json[start..index];
          index := index + 1;
          return Done(text, index);
        } else {
          index := index + 1;
        }
      }
      return Failed(DiggerError);
    }

    /** The part of `dig_object` from the key to the colon. */
    method DigKey() returns (r: Outcome<string>)
      modifies this`index
      ensures r == DugKey(json, old(index)) && (r.Done? ==> index == r.next)
    {
      hide DugString;
      var text := DigString();
      if text.Failed? { return text; }
      index := SkipWhitespace(json, index);
      var colon;
      colon, index := Expect(json, index, ':');
      return if colon then Done(text.value, index) else Failed(JsonError);
    }

    method DigNumber()
      modifies this`index
      ensures index == NumberStop(json, old(index))
    {
      while index < |json| && NumberChar(json[index])
        invariant NumberStop(json, index) == NumberStop(json, old(index))
      {
        index := index + 1;
      }
    }

    ghost predicate Agrees(r: Scan, error: Option<Error>)
      reads this
    {
      if r.Bad? then error == Some(r.error) else error == None && index == r.index && stack == r.stack
    }

    method DigValue() returns (error: Option<Error>)
      modifies this`index, this`stack, this`startIndex
      ensures Agrees(PassValue(json, old(index), old(stack)), error) && startIndex == old(startIndex)
      decreases Left(json, index), 3
    {
      hide DugString, SearchObject, PassArray, NumberStop, StandsAt;
      index := SkipWhitespace(json, index);
      error := None;
      if index >= |json| {
        index := index + 1;
        return;
      }
      var c := json[index];
      if c == '{' {
        error := DigObject(None);
      } else if c == '[' {
        error := DigArray();
      } else if c == '"' {
        var text := DigString();
        if text.Failed? { error := Some(text.error); }
      } else if c == 't' {
        var ok;
        ok, index := ExpectSequence(json, index, "true");
        if !ok { error := Some(JsonError); }
      } else if c == 'f' {
        var ok;
        ok, index := ExpectSequence(json, index, "false");
        if !ok { error := Some(JsonError); }
      } else if c == 'n' {
        var ok;
        ok, index := ExpectSequence(json, index, "null");
        if !ok { error := Some(JsonError); }
      } else if c == '-' || IsDigit(c) {
        DigNumber();
      } else {
        index := index + 1;
      }
    }

    ghost predicate Finds(r: Search, error: Option<Error>)
      reads this
    {
      match r
      case Wrong(e) => error == Some(e)
      case Found(start, stop) => error == None && startIndex == start && index == stop
      case Ran(i, st) => error == None && index == i && stack == st
    }

    /** The part of `dig_object` behind an entry; true if the object is over. */
    method DigMore(ghost key: Option<string>) returns (error: Option<Error>, over: bool)
      modifies this`index, this`stack
      ensures var all := SearchMore(json, old(index), key, old(stack));
              all == if error.Some? then Wrong(error.value) else if over then Over(key, index, stack)
                     else SearchEntries(json, index, key, stack)
      ensures error == None ==> old(index) < index
    {
      hide SearchEntries;
      error, over := None, false;
      index := SkipWhitespace(json, index);
      if CharAt(json, index, '}') {
        index := index + 1;
        stack := Pop(stack);
        return None, true;
      }
      var comma;
      comma, index := Expect(json, index, ',');
      if !comma { return Some(JsonError), false; }
      index := SkipWhitespace(json, index);
    }

    /** `skip_whitespace` and `expect`. */
    method Open(c: char) returns (ok: bool)
      modifies this`index
      ensures ok <==> CharAt(json, SkipSpaces(json, old(index)), c)
      ensures ok ==> index == SkipSpaces(json, old(index)) + 1 && old(index) < index
    {
      index := SkipWhitespace(json, index);
      ok, index := Expect(json, index, c);
    }

    method DigObject(key: Option<string>) returns (error: Option<Error>)
      modifies this`index, this`stack, this`startIndex
      ensures Finds(SearchObject(json, old(index), key, old(stack)), error)
      ensures key == None ==> startIndex == old(startIndex)
      decreases Left(json, index), 2
    {
      hide SearchEntries, SkipSpaces;
      stack := stack + [Object];
      var brace := Open('{');
      if !brace { return Some(JsonError); }
      error := DigEntries(key);
    }

    /** The loop of `dig_object`. */
    method DigEntries(key: Option<string>) returns (error: Option<Error>)
      modifies this`index, this`stack, this`startIndex
      ensures Finds(SearchEntries(json, old(index), key, old(stack)), error)
      ensures key == None ==> startIndex == old(startIndex)
      decreases Left(json, index), 4
    {
      hide DugKey, PassValue, TopIsObject, Pop, SearchEntries, SearchMore, SkipSpaces, CharAt;
      ghost var all := SearchEntries(json, index, key, stack);
      while index < |json|
        invariant old(index) <= index && all == SearchEntries(json, index, key, stack)
        invariant key == None ==> startIndex == old(startIndex)
        decreases |json| - index
      {
        SearchStep(json, index, key, stack);
        if json[index] == '}' {
          index := index + 1;
          if TopIsObject(stack) {
            stack := Pop(stack);
            return NotFound(key);
          }
        }
        var found := DigKey();
        if found.Failed? { return Some(found.error); }
        if key == Some(found.value) {
          startIndex := index;
          error := DigValue();
          return;
        }
        error := DigValue();
        if error.Some? { return; }
        var over;
        error, over := DigMore(key);
        if error.Some? { return; }
        if over { return NotFound(key); }
      }
      SearchEnd(json, index, key, stack);
      return NotFound(key);
    }

    /** `dig_array(nil)`. */
    method DigArray() returns (error: Option<Error>)
      modifies this`index, this`stack, this`startIndex
      ensures Agrees(PassArray(json, old(index), old(stack)), error) && startIndex == old(startIndex)
      decreases Left(json, index), 2
    {
      hide PassValue, PassItems;
      stack := stack + [Array];
      index := SkipWhitespace(json, index);
      var bracket;
      bracket, index := Expect(json, index, '[');
      if !bracket { return Some(JsonError); }
      index := SkipWhitespace(json, index);
      ghost var all := PassItems(json, index, stack);
      while index < |json|
        invariant old(index) < index && all == PassItems(json, index, stack) && startIndex == old(startIndex)
        decreases |json| - index
      {
        PassItemsStep(json, index, stack);
        var c := json[index];
        if c == ']' {
          index := index + 1;
          return None;
        } else if c == ',' {
          index := index + 1;
        } else {
          error := DigValue();
          if error.Some? { return; }
        }
      }
      PassItemsStep(json, index, stack);
      return None;
    }

    method Dig(keys: seq<string>) returns (error: Option<Error>)
      requires startIndex == index == 0 && stack == []
      modifies this
      ensures var d := DigKeys(old(json), keys);
              if d.Dug? then error == None && json == d.json else error == Some(d.error)
    {
      hide SearchObject, Slice;
      ghost var all := DigKeys(json, keys);
      assert keys[0..] == keys;
      for k := 0 to |keys|
        invariant startIndex == index == 0 && stack == [] && all == DigKeys(json, keys[k..])
      {
        assert keys[k..][1..] == keys[k + 1..];
        error := DigObject(Some(keys[k]));
        if error.Some? { return; }
        json := Blanks.Strip(Slice(json, startIndex, index));
        startIndex, index, stack := 0, 0, [];
      }
      return None;
    }

    /** `Digger#parse`. */
    method Parse() returns (r: Outcome<Value>)
      ensures r == ValueAt(json, 0)
    {
      var parser := new Parser(json);
      r := parser.Parse();
    }
  }
}
