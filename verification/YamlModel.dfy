/** The YAML writer and the indentation-stack reader. Ruby containers are references: the reader's
    store maps a container's number to its contents, and the stack holds numbers, so that a change
    through the stack is seen through the parent. */
module YamlModel {
  import opened Options
  import opened Hashes
  import opened Blanks
  import opened YamlText

  /** A document. Hashes keep their entries in insertion order. */
  datatype Value = Leaf(scalar: Scalar) | Hash(entries: seq<Field>) | Arr(items: seq<Value>)

  type Field = Pair<Value>

  // ---------------------------------------------------------------- writer

  function Spaces(n: nat): (s: string)
    ensures |s| == n && forall i :: 0 <= i < n ==> s[i] == ' '
  {
    seq(n, i => ' ')
  }

  function Serialize(v: Value, indent: nat): string
    decreases v, 1
  {
    match v
    case Leaf(s) => ScalarText(s)
    case Hash(entries) => SerializeEntries(entries, indent)
    case Arr(items) => SerializeItems(items, indent)
  }

  function SerializeEntries(entries: seq<Field>, indent: nat): string
    decreases entries, 0
  {
    if entries == [] then ""
    else
      var value := entries[0].value;
      Spaces(indent) + entries[0].key + ":"
      + (if value == Leaf(Null) then " null\n"
         else if value.Leaf? then " " + Serialize(value, 0) + "\n"
         else "\n" + Serialize(value, indent + 2))
      + SerializeEntries(entries[1..], indent)
  }

  function SerializeItems(items: seq<Value>, indent: nat): string
    decreases items, 0
  {
    if items == [] then ""
    else
      var item := items[0];
      Spaces(indent) + "- "
      + (if item == Leaf(Null) then "null\n"
         else if item.Leaf? then Serialize(item, 0) + "\n"
         else "\n" + Serialize(item, indent + 2))
      + SerializeItems(items[1..], indent)
  }

  // ---------------------------------------------------------------- lines

  /** What one line asks of the reader. A scalar is absent if the text after the colon or dash is. */
  datatype Line =
    | Skip
    | Entry(indent: nat, key: string, scalar: Option<Scalar>)
    | Item(indent: nat, scalar: Option<Scalar>)

  function ScalarOf(text: string): Option<Scalar> {
    if text == "" then None else Some(ParseValue(text))
  }

  /** `split_key_value`. */
  function SplitKeyValue(text: string): (string, Option<Scalar>) {
    var i := IndexOf(text, ':');
    if i == |text| then (Strip(text), None) else (Strip(text[..i]), ScalarOf(Strip(text[i + 1..])))
  }

  /** `parse_list_item`: what follows the first run of blanks. */
  function ParseListItem(text: string): Option<Scalar> {
    var i := FirstBlank(text);
    if i == |text| then None else ScalarOf(Strip(text[i + 1..]))
  }

  function ReadLine(line: string): Line {
    var text := Strip(line);
    if text == "" || text[0] == '#' then Skip
    else
      var indent := |line| - |LStrip(line)|;
      if text[0] == '-' then Item(indent, ParseListItem(text))
      else
        var (key, scalar) := SplitKeyValue(text);
        Entry(indent, key, scalar)
  }

  // ---------------------------------------------------------------- reader

  /** A place in a container: a scalar, or a reference to another container. */
  datatype Cell = Plain(scalar: Scalar) | Ref(id: nat)

  datatype Container = HashOf(entries: seq<Pair<Cell>>) | ArrayOf(items: seq<Cell>)

  datatype State = State(heap: seq<Container>, stack: seq<nat>, indents: seq<int>) {
    predicate Valid() {
      |stack| == |indents| > 0 && forall i :: 0 <= i < |stack| ==> stack[i] < |heap|
    }

    /** The number of the container on top of the stack. */
    function Top(): nat
      requires Valid()
    {
      stack[|stack| - 1]
    }
  }

  datatype Result<T> = Ok(value: T) | TypeError

  const START := State([HashOf([])], [0], [-1])

  /** Pop the frames whose indentation is not below that of the line. */
  function Unwind(st: State, indent: nat): (r: State)
    requires st.Valid()
    ensures r.Valid() && r.heap == st.heap
    decreases |st.stack|
  {
    var n := |st.stack|;
    if indent <= st.indents[n - 1] && 1 < n then
      Unwind(State(st.heap, st.stack[..n - 1], st.indents[..n - 1]), indent)
    else st
  }

  /** The array that a list item goes to: the container on top, or, if that is not an array, a new
      array that takes its place on the stack and, if the frame below is a hash, under its last key.
      (A frame is pushed only once its container is stored, so such a hash has a last key.) */
  function ItemTarget(st: State): (r: State)
    requires st.Valid()
    ensures r.Valid() && r.heap[r.Top()].ArrayOf?
  {
    if st.heap[st.Top()].ArrayOf? then st
    else
      var n, id := |st.stack|, |st.heap|;
      var heap := st.heap + [ArrayOf([])];
      var parent := if 1 < n then st.stack[n - 2] else 0;
      var heap' :=
        if 1 < n && heap[parent].HashOf? && heap[parent].entries != [] then
          var es := heap[parent].entries;
          heap[parent := HashOf(Put(es, es[|es| - 1].key, Ref(id)))]
        else heap;
      State(heap', st.stack[n - 1 := id], st.indents)
  }

  /** Store a scalar, or a new hash that becomes the top of the stack. */
  function Store(st: State, indent: nat, key: Option<string>, scalar: Option<Scalar>): (r: State)
    requires st.Valid()
    requires if key.Some? then st.heap[st.Top()].HashOf? else st.heap[st.Top()].ArrayOf?
    ensures r.Valid()
  {
    var id := |st.heap|;
    var cell := if scalar.Some? then Plain(scalar.value) else Ref(id);
    var top := st.heap[st.Top()];
    var top' := if key.Some? then HashOf(Put(top.entries, key.value, cell)) else ArrayOf(top.items + [cell]);
    var heap := st.heap[st.Top() := top'];
    if scalar.Some? then st.(heap := heap)
    else State(heap + [HashOf([])], st.stack + [id], st.indents + [indent])
  }

  /** One turn of the reader's loop. A key under an array is a type error in Ruby. */
  function Step(st: State, line: Line): (r: Result<State>)
    requires st.Valid()
    ensures r.Ok? ==> r.value.Valid()
  {
    match line
    case Skip => Ok(st)
    case Entry(indent, key, scalar) =>
      var u := Unwind(st, indent);
      if u.heap[u.Top()].ArrayOf? then TypeError else Ok(Store(u, indent, Some(key), scalar))
    case Item(indent, scalar) =>
      Ok(Store(ItemTarget(Unwind(st, indent)), indent, None, scalar))
  }

  function Steps(st: State, lines: seq<Line>): (r: Result<State>)
    requires st.Valid()
    ensures r.Ok? ==> r.value.Valid()
    decreases |lines|
  {
    if lines == [] then Ok(st)
    else
      var r := Step(st, lines[0]);
      if r.Ok? then Steps(r.value, lines[1..]) else TypeError
  }

  function ReadLines(lines: seq<string>): (r: seq<Line>)
    ensures |r| == |lines| && forall i :: 0 <= i < |lines| ==> r[i] == ReadLine(lines[i])
  {
    seq(|lines|, i requires 0 <= i < |lines| => ReadLine(lines[i]))
  }

  /** The reader as the original runs it: a loop that updates the store and the two stacks. */
  class Reader {
    var heap: seq<Container>
    var stack: seq<nat>
    var indents: seq<int>

    function Now(): State
      reads this
    {
      State(heap, stack, indents)
    }

    constructor ()
      ensures Now() == START
    {
      heap, stack, indents := [HashOf([])], [0], [-1];
    }

    method PopFrames(indent: nat)
      requires Now().Valid()
      modifies this`stack, this`indents
      ensures Now() == Unwind(old(Now()), indent)
    {
      while indent <= indents[|indents| - 1] && 1 < |stack|
        invariant Now().Valid() && Unwind(Now(), indent) == Unwind(old(Now()), indent)
        decreases |stack|
      {
        stack, indents := stack[..|stack| - 1], indents[..|indents| - 1];
      }
    }

    method OpenArray()
      requires Now().Valid()
      modifies this`heap, this`stack
      ensures Now() == ItemTarget(old(Now()))
    {
      if !heap[stack[|stack| - 1]].ArrayOf? {
        var id := |heap|;
        heap := heap + [ArrayOf([])];
        if 1 < |stack| && heap[stack[|stack| - 2]].HashOf? && heap[stack[|stack| - 2]].entries != [] {
          var es := heap[stack[|stack| - 2]].entries;
          heap := heap[stack[|stack| - 2] := HashOf(Put(es, es[|es| - 1].key, Ref(id)))];
        }
        stack := stack[|stack| - 1 := id];
      }
    }

    method Add(indent: nat, key: Option<string>, scalar: Option<Scalar>)
      requires Now().Valid()
      requires if key.Some? then heap[Now().Top()].HashOf? else heap[Now().Top()].ArrayOf?
      modifies this
      ensures Now() == Store(old(Now()), indent, key, scalar)
    {
      var current := stack[|stack| - 1];
      var cell := if scalar.Some? then Plain(scalar.value) else Ref(|heap|);
      if key.Some? {
        heap := heap[current := HashOf(Put(heap[current].entries, key.value, cell))];
      } else {
        heap := heap[current := ArrayOf(heap[current].items + [cell])];
      }
      if scalar.None? {
        stack, indents := stack + [|heap|], indents + [indent];
        heap := heap + [HashOf([])];
      }
    }

    method Parse(text: string) returns (ok: bool)
      requires Now() == START
      modifies this
      ensures (if ok then Ok(Now()) else TypeError) == Steps(START, ReadLines(Split(text, '\n')))
    {
      var lines := Split(text, '\n');
      ghost var all := ReadLines(lines);
      assert all[0..] == all;
      for n := 0 to |lines|
        invariant Now().Valid() && Steps(Now(), all[n..]) == Steps(START, all)
      {
        assert all[n..][0] == ReadLine(lines[n]) && all[n..][1..] == all[n + 1..];
        var line := ReadLine(lines[n]);
        if line.Skip? { continue; }
        PopFrames(line.indent);
        if line.Item? {
          OpenArray();
          Add(line.indent, None, line.scalar);
        } else if heap[stack[|stack| - 1]].ArrayOf? {
          return false;
        } else {
          Add(line.indent, Some(line.key), line.scalar);
        }
      }
      return true;
    }
  }
}
