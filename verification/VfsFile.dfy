/** `File#gets` and `File#each_line` over a file that is read in fixed-size chunks. */
module VfsFile {
  import opened Options
  import opened Lines

  const CHUNK_SIZE := 127

  /** No separator lies within the first n bytes. */
  predicate NoneBefore<A(==)>(text: seq<A>, sep: seq<A>, n: nat) {
    forall j :: 0 <= j && j + |sep| <= n ==> !FoundAt(text, sep, j)
  }

  /** Searching the first m bytes from |sep| - 1 before the n already searched misses nothing. */
  lemma {:induction false} SearchResumed<A>(text: seq<A>, sep: seq<A>, n: nat, m: nat, from: nat)
    requires sep != [] && n <= m <= |text| && NoneBefore(text, sep, n)
    requires from == if n - (|sep| - 1) >= 0 then n - (|sep| - 1) else 0
    ensures var p := FirstAt(text[..m], sep, from);
            if p < m then LineLength(text, sep) == p + |sep| <= m else NoneBefore(text, sep, m)
  {
    var p := FirstAt(text[..m], sep, from);
    forall j | 0 <= j && j + |sep| <= m ensures FoundAt(text[..m], sep, j) <==> FoundAt(text, sep, j) {
      assert text[..m][j..j + |sep|] == text[j..j + |sep|];
    }
    if p < m {
      forall j | 0 <= j < p ensures !FoundAt(text, sep, j) {
        if from <= j { assert !FoundAt(text[..m], sep, j); }
      }
      FirstAtIs(text, sep, p);
    }
  }

  lemma {:induction false} NoneAtFirst<A>(text: seq<A>, sep: seq<A>)
    requires sep != []
    ensures NoneBefore(text, sep, 0)
  {}

  lemma {:induction false} NoneInAll<A>(text: seq<A>, sep: seq<A>)
    requires sep != [] && NoneBefore(text, sep, |text|)
    ensures LineLength(text, sep) == |text|
  {
    NoneAt(text, sep);
  }

  class File<A(==)> {
    const bytes: seq<A>
    var pos: nat

    constructor (bytes: seq<A>)
      ensures this.bytes == bytes && pos == 0
    {
      this.bytes, pos := bytes, 0;
    }

    /** What has not been read. */
    function Rest(): seq<A>
      reads this
    {
      if pos <= |bytes| then bytes[pos..] else []
    }

    /** The driver's read: as many bytes as asked for or as there are, and none only at the end. */
    method Read(n: nat) returns (chunk: Option<seq<A>>)
      requires 0 < n
      modifies this
      ensures if old(Rest()) == [] then chunk == None && pos == old(pos)
              else
                var k := if n <= |old(Rest())| then n else |old(Rest())|;
                chunk == Some(old(Rest())[..k]) && pos == old(pos) + k
    {
      if |bytes| <= pos { return None; }
      var k := if n <= |bytes| - pos then n else |bytes| - pos;
      chunk := Some(bytes[pos..pos + k]);
      assert bytes[pos..pos + k] == Rest()[..k];
      pos := pos + k;
    }

    /** `gets` without a limit. After each chunk the search resumes |sep| - 1 bytes before the chunk, so
        that a separator split between chunks is found. */
    method Gets(sep: seq<A>) returns (line: Option<seq<A>>)
      requires sep != []
      modifies this
      ensures if old(Rest()) == [] then line == None && pos == old(pos)
              else
                var n := LineLength(old(Rest()), sep);
                line == Some(old(Rest())[..n]) && pos == old(pos) + n
    {
      hide FirstAt, NoneBefore, LineLength, FoundAt;
      var initial := pos;
      ghost var text := Rest();
      var result: seq<A> := [];
      var indexAt := 0;
      NoneAtFirst(text, sep);
      ghost var found := false;
      while true
        invariant |result| <= |text| && result == text[..|result|] && !found
        invariant pos == initial + |result| && Rest() == text[|result|..]
        invariant |result| == if indexAt <= |text| then indexAt else |text|
        invariant NoneBefore(text, sep, |result|)
        decreases |text| - |result|
      {
        var chunk := Read(CHUNK_SIZE);
        if chunk.None? { break; }
        var from := if indexAt - (|sep| - 1) >= 0 then indexAt - (|sep| - 1) else 0;
        ghost var known := |result|;
        result := result + chunk.value;
        assert result == text[..|result|];
        var p := FirstAt(result, sep, from);
        SearchResumed(text, sep, known, |result|, from);
        if p < |result| {
          result, found := result[..p + |sep|], true;
          assert result == text[..p + |sep|];
          break;
        }
        indexAt := indexAt + CHUNK_SIZE;
      }
      if result == [] { return None; }
      if !found { NoneInAll(text, sep); }
      pos := initial + |result|;
      line := Some(result);
    }

    /** `each_line`: hands out lines until `gets` returns nil, and so terminates. */
    method EachLine(sep: seq<A>) returns (lines: seq<seq<A>>)
      requires sep != []
      modifies this
      ensures lines == LinesOf(old(Rest()), sep) && Rest() == []
    {
      hide LineLength;
      lines := [];
      while true
        invariant lines + LinesOf(Rest(), sep) == LinesOf(old(Rest()), sep)
        decreases |Rest()|
      {
        ghost var rest := Rest();
        var line := Gets(sep);
        if line.None? { break; }
        assert Rest() == rest[LineLength(rest, sep)..];
        LineProgress(rest, sep);
        assert lines + LinesOf(rest, sep) == (lines + [line.value]) + LinesOf(Rest(), sep);
        lines := lines + [line.value];
      }
    }
  }

  lemma {:induction false} LineProgress<A>(text: seq<A>, sep: seq<A>)
    requires sep != [] && text != []
    ensures 0 < LineLength(text, sep) <= |text|
  {}
}
