/** The reader on the writer's lines: an induction over the document that follows both stacks. */
module YamlReader {
  import opened Options
  import opened Hashes
  import opened Blanks
  import opened YamlText
  import opened YamlModel
  import opened YamlRoundTrip

  lemma {:induction false} StepsConcat(st: State, a: seq<Line>, b: seq<Line>)
    requires st.Valid()
    ensures var r := Steps(st, a); Steps(st, a + b) == if r.Ok? then Steps(r.value, b) else TypeError
    decreases |a|
  {
    if a == [] {
      assert a + b == b;
    } else {
      assert (a + b)[1..] == a[1..] + b;
      var r := Step(st, a[0]);
      if r.Ok? { StepsConcat(r.value, a[1..], b); }
    }
  }

  /** Unwinding st to a line of this indentation exposes exactly the frames S with indentations I. */
  ghost predicate Resumes(st: State, S: seq<nat>, I: seq<int>, indent: nat) {
    && st.Valid()
    && |S| == |I| > 0 && S <= st.stack && I <= st.indents && I[|I| - 1] < indent
    && forall i :: |I| <= i < |st.indents| ==> indent <= st.indents[i]
  }

  lemma {:induction false} UnwindTo(st: State, S: seq<nat>, I: seq<int>, indent: nat)
    requires Resumes(st, S, I, indent)
    ensures Unwind(st, indent) == State(st.heap, S, I)
    decreases |st.stack|
  {
    var n := |st.stack|;
    if |S| < n {
      UnwindTo(State(st.heap, st.stack[..n - 1], st.indents[..n - 1]), S, I, indent);
    }
  }

  /** Only the container h and new containers may differ. */
  predicate Grows(heap: seq<Container>, heap': seq<Container>, h: nat) {
    |heap| <= |heap'| && forall j :: 0 <= j < |heap| && j != h ==> heap'[j] == heap[j]
  }

  predicate Fresh(pre: seq<Pair<Cell>>, entries: seq<Field>) {
    forall i, j :: 0 <= i < |pre| && 0 <= j < |entries| ==> pre[i].key != entries[j].key
  }

  /** A key line that opens a container: the new hash is stored and becomes the top frame. */
  lemma {:induction false} OpenEntry(st: State, S: seq<nat>, I: seq<int>, indent: nat, key: string,
                                     pre: seq<Pair<Cell>>)
      returns (r: State)
    requires Resumes(st, S, I, indent) && S[|S| - 1] < |st.heap| && st.heap[S[|S| - 1]] == HashOf(pre)
    requires KeyAbsent(pre, key)
    ensures Step(st, Entry(indent, key, None)) == Ok(r)
    ensures var c := |st.heap|;
            && r.Valid() && r.stack == S + [c] && r.indents == I + [indent] && |r.heap| == c + 1
            && r.heap[c] == HashOf([]) && r.heap[S[|S| - 1]] == HashOf(pre + [Field(key, Ref(c))])
            && Grows(st.heap, r.heap, S[|S| - 1])
  {
    UnwindTo(st, S, I, indent);
    PutNew(pre, key, Ref(|st.heap|));
    r := Store(State(st.heap, S, I), indent, Some(key), None);
  }

  lemma {:induction false} PlainEntry(
    st: State, S: seq<nat>, I: seq<int>, indent: nat, key: string, s: Scalar, pre: seq<Pair<Cell>>)
      returns (r: State)
    requires Resumes(st, S, I, indent) && S[|S| - 1] < |st.heap| && st.heap[S[|S| - 1]] == HashOf(pre)
    requires KeyAbsent(pre, key)
    ensures Step(st, Entry(indent, key, Some(s))) == Ok(r)
    ensures && r.Valid() && r.stack == S && r.indents == I && |r.heap| == |st.heap|
            && r.heap[S[|S| - 1]] == HashOf(pre + [Field(key, Plain(s))]) && Grows(st.heap, r.heap, S[|S| - 1])
  {
    UnwindTo(st, S, I, indent);
    PutNew(pre, key, Plain(s));
    r := Store(State(st.heap, S, I), indent, Some(key), Some(s));
  }

  lemma {:induction false} OpenItem(st: State, S: seq<nat>, I: seq<int>, indent: nat, pre: seq<Cell>) returns (r: State)
    requires Resumes(st, S, I, indent) && S[|S| - 1] < |st.heap| && st.heap[S[|S| - 1]] == ArrayOf(pre)
    ensures Step(st, Item(indent, None)) == Ok(r)
    ensures var c := |st.heap|;
            && r.Valid() && r.stack == S + [c] && r.indents == I + [indent] && |r.heap| == c + 1
            && r.heap[c] == HashOf([]) && r.heap[S[|S| - 1]] == ArrayOf(pre + [Ref(c)])
            && Grows(st.heap, r.heap, S[|S| - 1])
  {
    UnwindTo(st, S, I, indent);
    r := Store(State(st.heap, S, I), indent, None, None);
  }

  lemma {:induction false} PlainItem(st: State, S: seq<nat>, I: seq<int>, indent: nat, s: Scalar, pre: seq<Cell>)
    returns (r: State)
    requires Resumes(st, S, I, indent) && S[|S| - 1] < |st.heap| && st.heap[S[|S| - 1]] == ArrayOf(pre)
    ensures Step(st, Item(indent, Some(s))) == Ok(r)
    ensures && r.Valid() && r.stack == S && r.indents == I && |r.heap| == |st.heap|
            && r.heap[S[|S| - 1]] == ArrayOf(pre + [Plain(s)]) && Grows(st.heap, r.heap, S[|S| - 1])
  {
    UnwindTo(st, S, I, indent);
    r := Store(State(st.heap, S, I), indent, None, Some(s));
  }

  /** Item lines act on the frame's array, whether or not it had to be created first. */
  lemma {:induction false} ItemsFromTarget(st: State, S: seq<nat>, I: seq<int>, indent: nat, items: seq<Value>)
    requires Resumes(st, S, I, indent) && items != [] && State(st.heap, S, I).Valid()
    ensures Steps(st, ItemLines(items, indent)) == Steps(ItemTarget(State(st.heap, S, I)), ItemLines(items, indent))
  {
    UnwindTo(st, S, I, indent);
    var t := ItemTarget(State(st.heap, S, I));
    UnwindTo(t, t.stack, t.indents, indent);
    var first := Item(indent, ScalarIn(items[0]));
    assert ItemTarget(t) == t;
    assert Step(st, first) == Step(t, first);
    assert ItemLines(items, indent)[0] == first;
  }

  // ---------------------------------------------------------------- whole containers

  lemma {:induction false} Regroup<A>(a: seq<A>, x: A, b: seq<A>)
    ensures a + [x] + b == a + ([x] + b) && ([x] + b)[1..] == b
  {}

  /** Entry lines fill the hash of their frame with what the entries normalise to, in new containers. */
  lemma {:induction false} EntriesRead(
    st: State, S: seq<nat>, I: seq<int>, indent: nat, entries: seq<Field>, pre: seq<Pair<Cell>>)
      returns (r: State, cells: seq<Pair<Cell>>)
    requires Resumes(st, S, I, indent) && EntriesOk(entries) && Fresh(pre, entries)
    requires st.heap[S[|S| - 1]] == HashOf(pre)
    ensures Steps(st, EntryLines(entries, indent)) == Ok(r) && Resumes(r, S, I, indent)
    ensures Grows(st.heap, r.heap, S[|S| - 1]) && r.heap[S[|S| - 1]] == HashOf(pre + cells)
    ensures HoldsEntries(r.heap, cells, NormEntries(entries), |st.heap|)
    decreases entries, 0
  {
    if entries == [] {
      r, cells := st, [];
      assert pre + [] == pre;
    } else {
      var v, key, rest := entries[0].value, entries[0].key, entries[1..];
      var head := [Entry(indent, key, ScalarIn(v))] + Lines(v, indent + 2);
      var m, cell := EntryRead(st, S, I, indent, entries[0], pre);
      var pre' := pre + [Field(key, cell)];
      assert Fresh(pre', rest);
      var tail;
      r, tail := EntriesRead(m, S, I, indent, rest, pre');
      cells := [Field(key, cell)] + tail;
      Regroup(pre, Field(key, cell), tail);
      StepsConcat(st, head, EntryLines(rest, indent));
      HoldsFrame(m.heap, r.heap, cell, Norm(v), |st.heap|, |st.heap|);
      HoldsEntriesFrame(r.heap, r.heap, tail, NormEntries(rest), |m.heap|, |st.heap|);
      assert cells[1..] == tail;
      assert NormEntries(entries)[1..] == NormEntries(rest);
    }
  }

  /** One entry: its line, and the lines of its contents. */
  lemma {:induction false} EntryRead(
    st: State, S: seq<nat>, I: seq<int>, indent: nat, entry: Field, pre: seq<Pair<Cell>>)
      returns (r: State, cell: Cell)
    requires Resumes(st, S, I, indent) && WellFormed(entry.value)
    requires KeyAbsent(pre, entry.key)
    requires st.heap[S[|S| - 1]] == HashOf(pre)
    ensures Steps(st, [Entry(indent, entry.key, ScalarIn(entry.value))] + Lines(entry.value, indent + 2)) == Ok(r)
    ensures Resumes(r, S, I, indent) && Grows(st.heap, r.heap, S[|S| - 1])
    ensures r.heap[S[|S| - 1]] == HashOf(pre + [Field(entry.key, cell)])
    ensures Holds(r.heap, cell, Norm(entry.value), |st.heap|)
    decreases entry.value, 2
  {
    var v := entry.value;
    if v.Leaf? {
      r := PlainEntry(st, S, I, indent, entry.key, v.scalar, pre);
      cell := Plain(v.scalar);
      var line := Entry(indent, entry.key, ScalarIn(v));
      assert [line] + Lines(v, indent + 2) == [line];
    } else {
      r, cell := ContainerRead(st, S, I, indent, entry, pre);
    }
  }

  lemma {:induction false} ContainerRead(
    st: State, S: seq<nat>, I: seq<int>, indent: nat, entry: Field, pre: seq<Pair<Cell>>)
      returns (r: State, cell: Cell)
    requires !entry.value.Leaf?
    requires Resumes(st, S, I, indent) && WellFormed(entry.value)
    requires KeyAbsent(pre, entry.key)
    requires st.heap[S[|S| - 1]] == HashOf(pre)
    ensures Steps(st, [Entry(indent, entry.key, ScalarIn(entry.value))] + Lines(entry.value, indent + 2)) == Ok(r)
    ensures Resumes(r, S, I, indent) && Grows(st.heap, r.heap, S[|S| - 1])
    ensures r.heap[S[|S| - 1]] == HashOf(pre + [Field(entry.key, cell)])
    ensures Holds(r.heap, cell, Norm(entry.value), |st.heap|)
    decreases entry.value, 1
  {
    hide Step, Steps, ItemTarget, Lines, NormEntries, NormItems, KeyAbsent;
    var v, line := entry.value, Entry(indent, entry.key, ScalarIn(entry.value));
    var m := OpenEntry(st, S, I, indent, entry.key, pre);
    var c := |st.heap|;
    assert Resumes(m, S + [c], I + [indent], indent + 2);
    StepThen(st, line, Lines(v, indent + 2), m);
    if v.Hash? {
      r, cell := HashRead(m, S, I, indent, v, c);
      HoldsFrame(r.heap, r.heap, cell, Norm(v), c, |st.heap|);
    } else {
      r, cell := ArrayEntryRead(m, S, I, indent, entry, pre, c);
    }
  }

  lemma {:induction false} NoLines(m: State) returns (r: State)
    requires m.Valid()
    ensures r == m && Steps(m, []) == Ok(m)
  {
    r := m;
  }

  lemma {:induction false} StepThen(st: State, line: Line, lines: seq<Line>, m: State)
    requires st.Valid() && Step(st, line) == Ok(m)
    ensures Steps(st, [line] + lines) == Steps(m, lines)
  {
    assert ([line] + lines)[1..] == lines;
  }

  /** The lines of a hash, read into the new container c on top. */
  lemma {:induction false} HashRead(m: State, S: seq<nat>, I: seq<int>, indent: nat, v: Value, c: nat)
      returns (r: State, cell: Cell)
    requires v.Hash? && WellFormed(v) && |S| == |I| > 0 && I[|I| - 1] < indent
    requires Resumes(m, S + [c], I + [indent], indent + 2) && |m.heap| == c + 1 && m.heap[c] == HashOf([])
    ensures Steps(m, Lines(v, indent + 2)) == Ok(r) && Resumes(r, S, I, indent)
    ensures cell == Ref(c) && Holds(r.heap, cell, Norm(v), c) && Grows(m.heap, r.heap, c)
    decreases v, 0
  {
    assert (S + [c])[|S|] == c;
    var cells;
    r, cells := EntriesRead(m, S + [c], I + [indent], indent + 2, v.entries, []);
    cell := Ref(c);
    assert [] + cells == cells;
    HoldsEntriesFrame(r.heap, r.heap, cells, NormEntries(v.entries), |m.heap|, c);
    ChildDone(r, S, I, indent, c);
  }

  /** The lines of an array, read with a still empty hash c on top: the first item puts an array in its
      place, in the frame and under the key. An empty array has no lines, and the hash stays. */
  lemma {:induction false} ArrayEntryRead(
    m: State, S: seq<nat>, I: seq<int>, indent: nat, entry: Field, pre: seq<Pair<Cell>>, c: nat)
      returns (r: State, cell: Cell)
    requires entry.value.Arr? && WellFormed(entry.value) && |S| == |I| > 0 && I[|I| - 1] < indent
    requires Resumes(m, S + [c], I + [indent], indent + 2) && m == State(m.heap, S + [c], I + [indent]) && m.Valid()
    requires |m.heap| == c + 1 && m.heap[c] == HashOf([]) && S[|S| - 1] < c
    requires m.heap[S[|S| - 1]] == HashOf(pre + [Field(entry.key, Ref(c))])
    requires KeyAbsent(pre, entry.key)
    ensures Steps(m, Lines(entry.value, indent + 2)) == Ok(r) && Resumes(r, S, I, indent)
    ensures Holds(r.heap, cell, Norm(entry.value), c)
    ensures |m.heap| <= |r.heap| && r.heap[S[|S| - 1]] == HashOf(pre + [Field(entry.key, cell)])
    ensures forall j :: 0 <= j < c && j != S[|S| - 1] ==> r.heap[j] == m.heap[j]
    decreases entry.value, 0
  {
    hide Resumes, Steps, ItemTarget;
    var items := entry.value.items;
    if items == [] {
      r := NoLines(m);
      cell := Ref(c);
      ChildDone(r, S, I, indent, c);
    } else {
      var a := |m.heap|;
      var t := ArrayInPlace(m, S, I, indent, entry.key, pre, c);
      ItemsFromTarget(m, S + [c], I + [indent], indent + 2, items);
      assert (S + [a])[|S|] == a;
      var cells;
      r, cells := ItemsRead(t, S + [a], I + [indent], indent + 2, items, []);
      cell := Ref(a);
      assert [] + cells == cells;
      HoldsItemsFrame(r.heap, r.heap, cells, NormItems(items), |t.heap|, c);
      ChildDone(r, S, I, indent, a);
    }
  }

  lemma {:induction false} ArrayInPlace(
    m: State, S: seq<nat>, I: seq<int>, indent: nat, key: string, pre: seq<Pair<Cell>>, c: nat)
      returns (t: State)
    requires |S| == |I| > 0 && Resumes(m, S + [c], I + [indent], indent + 2)
    requires m == State(m.heap, S + [c], I + [indent]) && m.Valid()
    requires |m.heap| == c + 1 && m.heap[c] == HashOf([]) && S[|S| - 1] < c
    requires m.heap[S[|S| - 1]] == HashOf(pre + [Field(key, Ref(c))])
    requires KeyAbsent(pre, key)
    ensures var a := |m.heap|;
            && t == ItemTarget(State(m.heap, S + [c], I + [indent]))
            && t.Valid() && Resumes(t, S + [a], I + [indent], indent + 2)
            && t.heap == m.heap[S[|S| - 1] := HashOf(pre + [Field(key, Ref(a))])] + [ArrayOf([])]
  {
    var a := |m.heap|;
    t := ItemTarget(State(m.heap, S + [c], I + [indent]));
    PutLast(pre, key, Ref(c), Ref(a));
    assert (S + [c])[|S| := a] == S + [a];
    assert t.stack == S + [a];
  }

  /** After a child's lines the parent's frame is again the one that a sibling resumes. */
  lemma {:induction false} ChildDone(r: State, S: seq<nat>, I: seq<int>, indent: nat, c: nat)
    requires Resumes(r, S + [c], I + [indent], indent + 2) && |S| == |I| > 0 && I[|I| - 1] < indent
    ensures Resumes(r, S, I, indent)
  {
    assert (S + [c])[..|S|] == S && (I + [indent])[..|I|] == I;
    assert r.indents[|I|] == (I + [indent])[|I|];
  }

  /** Item lines extend the array of their frame; an array among the items leaves an empty hash. */
  lemma {:induction false} ItemsRead(
    st: State, S: seq<nat>, I: seq<int>, indent: nat, items: seq<Value>, pre: seq<Cell>)
      returns (r: State, cells: seq<Cell>)
    requires Resumes(st, S, I, indent) && ItemsOk(items)
    requires st.heap[S[|S| - 1]] == ArrayOf(pre)
    ensures Steps(st, ItemLines(items, indent)) == Ok(r) && Resumes(r, S, I, indent)
    ensures Grows(st.heap, r.heap, S[|S| - 1]) && r.heap[S[|S| - 1]] == ArrayOf(pre + cells)
    ensures HoldsItems(r.heap, cells, NormItems(items), |st.heap|)
    decreases items, 0
  {
    if items == [] {
      r, cells := st, [];
      assert pre + [] == pre;
    } else {
      var v, rest := items[0], items[1..];
      var head := [Item(indent, ScalarIn(v))] + Lines(v, indent + 2);
      var m, cell := ItemRead(st, S, I, indent, v, pre);
      var tail;
      r, tail := ItemsRead(m, S, I, indent, rest, pre + [cell]);
      cells := [cell] + tail;
      Regroup(pre, cell, tail);
      StepsConcat(st, head, ItemLines(rest, indent));
      HoldsFrame(m.heap, r.heap, cell, NormItems(items)[0], |st.heap|, |st.heap|);
      HoldsItemsFrame(r.heap, r.heap, tail, NormItems(rest), |m.heap|, |st.heap|);
      assert cells[1..] == tail;
      assert NormItems(items)[1..] == NormItems(rest);
    }
  }

  lemma {:induction false} ItemRead(
    st: State, S: seq<nat>, I: seq<int>, indent: nat, v: Value, pre: seq<Cell>)
      returns (r: State, cell: Cell)
    requires Resumes(st, S, I, indent) && WellFormed(v)
    requires st.heap[S[|S| - 1]] == ArrayOf(pre)
    ensures Steps(st, [Item(indent, ScalarIn(v))] + Lines(v, indent + 2)) == Ok(r)
    ensures Resumes(r, S, I, indent) && Grows(st.heap, r.heap, S[|S| - 1])
    ensures r.heap[S[|S| - 1]] == ArrayOf(pre + [cell])
    ensures Holds(r.heap, cell, if v.Arr? then Hash([]) else Norm(v), |st.heap|)
    decreases v, 2
  {
    if v.Leaf? {
      r := PlainItem(st, S, I, indent, v.scalar, pre);
      cell := Plain(v.scalar);
      assert [Item(indent, ScalarIn(v))] + Lines(v, indent + 2) == [Item(indent, ScalarIn(v))];
    } else {
      var m := OpenItem(st, S, I, indent, pre);
      assert Resumes(m, S + [|st.heap|], I + [indent], indent + 2);
      StepThen(st, Item(indent, None), Lines(v, indent + 2), m);
      r := ContainerItemRead(m, S, I, indent, v, pre, |st.heap|);
      cell := Ref(|st.heap|);
    }
  }

  lemma {:induction false} ContainerItemRead(
    m: State, S: seq<nat>, I: seq<int>, indent: nat, v: Value, pre: seq<Cell>, c: nat)
      returns (r: State)
    requires !v.Leaf? && WellFormed(v) && |S| == |I| > 0 && I[|I| - 1] < indent
    requires Resumes(m, S + [c], I + [indent], indent + 2) && m == State(m.heap, S + [c], I + [indent]) && m.Valid()
    requires |m.heap| == c + 1 && m.heap[c] == HashOf([]) && S[|S| - 1] < c
    requires m.heap[S[|S| - 1]] == ArrayOf(pre + [Ref(c)])
    ensures Steps(m, Lines(v, indent + 2)) == Ok(r) && Resumes(r, S, I, indent)
    ensures |m.heap| <= |r.heap| && forall j :: 0 <= j < c ==> r.heap[j] == m.heap[j]
    ensures Holds(r.heap, Ref(c), if v.Arr? then Hash([]) else Norm(v), c)
    decreases v, 1
  {
    hide Resumes, Steps, Lines;
    if v.Hash? {
      var cell;
      r, cell := HashRead(m, S, I, indent, v, c);
    } else {
      r := ArrayItemRead(m, S, I, indent, v, pre, c);
    }
  }

  /** The lines of an array under an array: the items go to an array that no container refers to, and
      the hash c that was stored for it stays empty. */
  lemma {:induction false} ArrayItemRead(
    m: State, S: seq<nat>, I: seq<int>, indent: nat, v: Value, pre: seq<Cell>, c: nat)
      returns (r: State)
    requires v.Arr? && WellFormed(v) && |S| == |I| > 0 && I[|I| - 1] < indent
    requires Resumes(m, S + [c], I + [indent], indent + 2) && m == State(m.heap, S + [c], I + [indent]) && m.Valid()
    requires |m.heap| == c + 1 && m.heap[c] == HashOf([]) && S[|S| - 1] < c
    requires m.heap[S[|S| - 1]] == ArrayOf(pre + [Ref(c)])
    ensures Steps(m, Lines(v, indent + 2)) == Ok(r) && Resumes(r, S, I, indent)
    ensures |m.heap| <= |r.heap| && forall j :: 0 <= j <= c ==> r.heap[j] == m.heap[j]
    decreases v, 0
  {
    hide Steps;
    if v.items == [] {
      r := NoLines(m);
      ChildDone(r, S, I, indent, c);
    } else {
      var a, t := |m.heap|, ItemTarget(State(m.heap, S + [c], I + [indent]));
      ItemsFromTarget(m, S + [c], I + [indent], indent + 2, v.items);
      assert (S + [c])[|S| := a] == S + [a] && (S + [a])[|S|] == a;
      assert t == State(m.heap + [ArrayOf([])], S + [a], I + [indent]);
      var lost;
      r, lost := ItemsRead(t, S + [a], I + [indent], indent + 2, v.items, []);
      ChildDone(r, S, I, indent, a);
    }
  }
}
