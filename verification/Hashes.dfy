/** Hashes keep their keys in order of insertion; assignment overwrites in place or appends. */
module Hashes {
  datatype Pair<V> = Field(key: string, value: V)

  /** `hash[key] = value`. */
  function Put<V>(entries: seq<Pair<V>>, key: string, value: V): seq<Pair<V>> {
    if entries == [] then [Field(key, value)]
    else if entries[0].key == key then [Field(key, value)] + entries[1..]
    else [entries[0]] + Put(entries[1..], key, value)
  }

  predicate KeyAbsent<V>(entries: seq<Pair<V>>, key: string) {
    forall i :: 0 <= i < |entries| ==> entries[i].key != key
  }

  lemma {:induction false} PutNew<V>(entries: seq<Pair<V>>, key: string, value: V)
    requires KeyAbsent(entries, key)
    ensures Put(entries, key, value) == entries + [Field(key, value)]
  {
    if entries != [] {
      assert entries[0].key != key;
      PutNew(entries[1..], key, value);
      assert entries == [entries[0]] + entries[1..];
    }
  }

  /** A key that is there keeps its place and gets the new value. */
  lemma {:induction false} PutOld<V>(before: seq<Pair<V>>, key: string, was: V, behind: seq<Pair<V>>, value: V)
    requires KeyAbsent(before, key)
    ensures Put(before + [Field(key, was)] + behind, key, value) == before + [Field(key, value)] + behind
  {
    if before != [] {
      assert before[0].key != key;
      PutOld(before[1..], key, was, behind, value);
      assert (before + [Field(key, was)] + behind)[1..] == before[1..] + [Field(key, was)] + behind;
    } else {
      assert ([Field(key, was)] + behind)[1..] == behind && before + [Field(key, was)] == [Field(key, was)];
      assert before + [Field(key, value)] == [Field(key, value)];
    }
  }

  lemma {:induction false} PutLast<V>(entries: seq<Pair<V>>, key: string, was: V, value: V)
    requires KeyAbsent(entries, key)
    ensures Put(entries + [Field(key, was)], key, value) == entries + [Field(key, value)]
  {
    PutOld(entries, key, was, [], value);
    assert entries + [Field(key, was)] + [] == entries + [Field(key, was)];
    assert entries + [Field(key, value)] + [] == entries + [Field(key, value)];
  }
}
