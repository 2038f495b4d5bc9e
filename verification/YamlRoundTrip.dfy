/** What the reader makes of the writer's output. */
module YamlRoundTrip {
  import opened Options
  import opened Hashes
  import opened Blanks
  import opened YamlText
  import opened YamlModel

  // ---------------------------------------------------------------- the writer's lines

  /** The lines of a container's contents, as the reader should see them. */
  function Lines(v: Value, indent: nat): seq<Line>
    decreases v, 1
  {
    match v
    case Leaf(_) => []
    case Hash(entries) => EntryLines(entries, indent)
    case Arr(items) => ItemLines(items, indent)
  }

  function ScalarIn(v: Value): Option<Scalar> {
    if v.Leaf? then Some(v.scalar) else None
  }

  function EntryLines(entries: seq<Field>, indent: nat): seq<Line>
    decreases entries, 0
  {
    if entries == [] then []
    else
      [Entry(indent, entries[0].key, ScalarIn(entries[0].value))]
      + Lines(entries[0].value, indent + 2) + EntryLines(entries[1..], indent)
  }

  function ItemLines(items: seq<Value>, indent: nat): seq<Line>
    decreases items, 0
  {
    if items == [] then []
    else [Item(indent, ScalarIn(items[0]))] + Lines(items[0], indent + 2) + ItemLines(items[1..], indent)
  }

  // ---------------------------------------------------------------- documents

  predicate KeyOk(key: string) {
    Trimmed(key) && ':' !in key && '\n' !in key && key[0] != '-' && key[0] != '#'
  }

  /** Keys and scalars that fit the line format; keys of a hash are distinct, as in any Ruby hash. */
  predicate WellFormed(v: Value)
    decreases v, 1
  {
    match v
    case Leaf(s) => ScalarOk(s)
    case Hash(entries) => EntriesOk(entries)
    case Arr(items) => ItemsOk(items)
  }

  predicate EntriesOk(entries: seq<Field>)
    decreases entries, 0
  {
    entries == [] ||
    (&& KeyOk(entries[0].key) && WellFormed(entries[0].value)
     && (forall j :: 0 < j < |entries| ==> entries[j].key != entries[0].key)
     && EntriesOk(entries[1..]))
  }

  predicate ItemsOk(items: seq<Value>)
    decreases items, 0
  {
    items == [] || (WellFormed(items[0]) && ItemsOk(items[1..]))
  }

  /** What is left of a document after writing and reading: an empty array, and an array directly
      inside an array, come back as an empty hash. */
  function Norm(v: Value): Value
    decreases v, 1
  {
    match v
    case Leaf(_) => v
    case Hash(entries) => Hash(NormEntries(entries))
    case Arr(items) => if items == [] then Hash([]) else Arr(NormItems(items))
  }

  function NormEntries(entries: seq<Field>): (r: seq<Field>)
    ensures |r| == |entries|
    decreases entries, 0
  {
    if entries == [] then []
    else [Field(entries[0].key, Norm(entries[0].value))] + NormEntries(entries[1..])
  }

  function NormItems(items: seq<Value>): (r: seq<Value>)
    ensures |r| == |items|
    decreases items, 0
  {
    if items == [] then []
    else [if items[0].Arr? then Hash([]) else Norm(items[0])] + NormItems(items[1..])
  }

  /** No empty array, and no array directly inside an array, at any depth. */
  predicate Faithful(v: Value)
    decreases v, 1
  {
    match v
    case Leaf(_) => true
    case Hash(entries) => EntriesFaithful(entries)
    case Arr(items) => items != [] && ItemsFaithful(items)
  }

  predicate EntriesFaithful(entries: seq<Field>)
    decreases entries, 0
  {
    entries == [] || (Faithful(entries[0].value) && EntriesFaithful(entries[1..]))
  }

  predicate ItemsFaithful(items: seq<Value>)
    decreases items, 0
  {
    items == [] || (!items[0].Arr? && Faithful(items[0]) && ItemsFaithful(items[1..]))
  }

  lemma {:induction false} NormIsIdentity(v: Value)
    ensures Norm(v) == v <==> Faithful(v)
    decreases v, 1
  {
    match v
    case Leaf(_) =>
    case Hash(entries) => NormEntriesIsIdentity(entries);
    case Arr(items) => NormItemsIsIdentity(items);
  }

  lemma {:induction false} NormEntriesIsIdentity(entries: seq<Field>)
    ensures NormEntries(entries) == entries <==> EntriesFaithful(entries)
    decreases entries, 0
  {
    if entries != [] {
      NormIsIdentity(entries[0].value);
      NormEntriesIsIdentity(entries[1..]);
      assert entries == [entries[0]] + entries[1..];
      assert NormEntries(entries)[0] == Field(entries[0].key, Norm(entries[0].value));
      assert NormEntries(entries)[1..] == NormEntries(entries[1..]);
    }
  }

  lemma {:induction false} NormItemsIsIdentity(items: seq<Value>)
    ensures NormItems(items) == items <==> ItemsFaithful(items)
    decreases items, 0
  {
    if items != [] {
      NormIsIdentity(items[0]);
      NormItemsIsIdentity(items[1..]);
      assert items == [items[0]] + items[1..];
      assert NormItems(items)[0] == if items[0].Arr? then Hash([]) else Norm(items[0]);
      assert NormItems(items)[1..] == NormItems(items[1..]);
    }
  }

  // ---------------------------------------------------------------- what a store holds

  /** The cell holds the document v, in containers numbered lo and up. */
  predicate Holds(heap: seq<Container>, cell: Cell, v: Value, lo: nat)
    decreases v, 1
  {
    match v
    case Leaf(s) => cell == Plain(s)
    case Hash(entries) =>
      cell.Ref? && lo <= cell.id < |heap| && heap[cell.id].HashOf?
      && HoldsEntries(heap, heap[cell.id].entries, entries, lo)
    case Arr(items) =>
      cell.Ref? && lo <= cell.id < |heap| && heap[cell.id].ArrayOf?
      && HoldsItems(heap, heap[cell.id].items, items, lo)
  }

  predicate HoldsEntries(heap: seq<Container>, cells: seq<Pair<Cell>>, entries: seq<Field>, lo: nat)
    decreases entries, 0
  {
    |cells| == |entries| &&
    (entries == [] ||
     (&& cells[0].key == entries[0].key && Holds(heap, cells[0].value, entries[0].value, lo)
      && HoldsEntries(heap, cells[1..], entries[1..], lo)))
  }

  predicate HoldsItems(heap: seq<Container>, cells: seq<Cell>, items: seq<Value>, lo: nat)
    decreases items, 0
  {
    |cells| == |items| &&
    (items == [] || (Holds(heap, cells[0], items[0], lo) && HoldsItems(heap, cells[1..], items[1..], lo)))
  }

  /** A store holds at most one document at a cell. */
  lemma {:induction false} HoldsUnique(heap: seq<Container>, cell: Cell, v: Value, w: Value, lo: nat)
    requires Holds(heap, cell, v, lo) && Holds(heap, cell, w, lo)
    ensures v == w
    decreases v, 1
  {
    match v
    case Leaf(_) =>
    case Hash(entries) => HoldsEntriesUnique(heap, heap[cell.id].entries, entries, w.entries, lo);
    case Arr(items) => HoldsItemsUnique(heap, heap[cell.id].items, items, w.items, lo);
  }

  lemma {:induction false} HoldsEntriesUnique(
    heap: seq<Container>, cells: seq<Pair<Cell>>, v: seq<Field>, w: seq<Field>, lo: nat)
    requires HoldsEntries(heap, cells, v, lo) && HoldsEntries(heap, cells, w, lo)
    ensures v == w
    decreases v, 0
  {
    if v != [] {
      HoldsUnique(heap, cells[0].value, v[0].value, w[0].value, lo);
      HoldsEntriesUnique(heap, cells[1..], v[1..], w[1..], lo);
      assert v == [v[0]] + v[1..] && w == [w[0]] + w[1..];
    }
  }

  lemma {:induction false} HoldsItemsUnique(
    heap: seq<Container>, cells: seq<Cell>, v: seq<Value>, w: seq<Value>, lo: nat)
    requires HoldsItems(heap, cells, v, lo) && HoldsItems(heap, cells, w, lo)
    ensures v == w
    decreases v, 0
  {
    if v != [] {
      HoldsUnique(heap, cells[0], v[0], w[0], lo);
      HoldsItemsUnique(heap, cells[1..], v[1..], w[1..], lo);
      assert v == [v[0]] + v[1..] && w == [w[0]] + w[1..];
    }
  }

  /** heap' extends heap, keeping the containers from lo up. */
  predicate Extends(heap: seq<Container>, heap': seq<Container>, lo: nat) {
    |heap| <= |heap'| && forall j :: lo <= j < |heap| ==> heap'[j] == heap[j]
  }

  lemma {:induction false} HoldsFrame(
    heap: seq<Container>, heap': seq<Container>, cell: Cell, v: Value, lo: nat, lo': nat)
    requires Holds(heap, cell, v, lo) && Extends(heap, heap', lo) && lo' <= lo
    ensures Holds(heap', cell, v, lo')
    decreases v, 1
  {
    match v
    case Leaf(_) =>
    case Hash(entries) => HoldsEntriesFrame(heap, heap', heap[cell.id].entries, entries, lo, lo');
    case Arr(items) => HoldsItemsFrame(heap, heap', heap[cell.id].items, items, lo, lo');
  }

  lemma {:induction false} HoldsEntriesFrame(
    heap: seq<Container>, heap': seq<Container>, cells: seq<Pair<Cell>>, entries: seq<Field>, lo: nat, lo': nat)
    requires HoldsEntries(heap, cells, entries, lo) && Extends(heap, heap', lo) && lo' <= lo
    ensures HoldsEntries(heap', cells, entries, lo')
    decreases entries, 0
  {
    if entries != [] {
      HoldsFrame(heap, heap', cells[0].value, entries[0].value, lo, lo');
      HoldsEntriesFrame(heap, heap', cells[1..], entries[1..], lo, lo');
    }
  }

  lemma {:induction false} HoldsItemsFrame(
    heap: seq<Container>, heap': seq<Container>, cells: seq<Cell>, items: seq<Value>, lo: nat, lo': nat)
    requires HoldsItems(heap, cells, items, lo) && Extends(heap, heap', lo) && lo' <= lo
    ensures HoldsItems(heap', cells, items, lo')
    decreases items, 0
  {
    if items != [] {
      HoldsFrame(heap, heap', cells[0], items[0], lo, lo');
      HoldsItemsFrame(heap, heap', cells[1..], items[1..], lo, lo');
    }
  }
}
