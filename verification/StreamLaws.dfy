/** What any user of buffered IO sees: laws of the answers of `Io.Run`, in terms of bytes and positions. */
module StreamLaws {
  import opened ByteStream
  import opened Lines
  import opened BufferedIo

  // ---------------------------------------------------------------- two and three operations

  lemma {:induction false} One(s: Stream, a: Op)
    ensures DoAll(s, [a]) == (Do(s, a).0, [Do(s, a).1])
  {
    hide Do;
    assert [a][1..] == [];
    var r, none := Do(s, a).1, DoAll(Do(s, a).0, []).1;
    assert [r] + none == [r];
  }

  lemma {:induction false} Two(s: Stream, a: Op, b: Op)
    ensures var (s1, ra) := Do(s, a);
            var (s2, rb) := Do(s1, b);
            DoAll(s, [a, b]) == (s2, [ra, rb])
  {
    hide Do;
    assert [a, b][1..] == [b];
    One(Do(s, a).0, b);
    var ra, rb := Do(s, a).1, Do(Do(s, a).0, b).1;
    assert [ra] + [rb] == [ra, rb];
  }

  lemma {:induction false} Three(s: Stream, a: Op, b: Op, c: Op)
    ensures var (s1, ra) := Do(s, a);
            var (s2, rb) := Do(s1, b);
            var (s3, rc) := Do(s2, c);
            DoAll(s, [a, b, c]) == (s3, [ra, rb, rc])
  {
    hide Do;
    assert [a, b, c][1..] == [b, c];
    var s1, ra := Do(s, a).0, Do(s, a).1;
    Two(s1, b, c);
    var rb, rc := Do(s1, b).1, Do(Do(s1, b).0, c).1;
    assert [ra] + [rb, rc] == [ra, rb, rc];
  }

  // ---------------------------------------------------------------- positions

  /** The bytes an answer hands out. */
  function HandedOut(r: Result): seq<byte> {
    match r
    case Byte(b) => [b]
    case Bytes(data) => data
    case _ => []
  }

  predicate Reads(op: Op) {
    op.GetByte? || op.GetChar? || op.Read? || op.ReadAll? || op.Gets?
  }

  /** A seek goes where it says: to the position itself, and to the bytes of the file from there on. */
  lemma {:induction false} SeekGoesThere(s: Stream, p: nat)
    ensures DoAll(s, [Seek(p), Pos]).1 == [Number(0), Number(p)]
    ensures DoAll(s, [Seek(p), ReadAll]).1 == [Number(0), Bytes(if p <= |s.file| then s.file[p..] else [])]
    ensures DoAll(s, [Seek(p), Eof]).1 == [Number(0), Flag(|s.file| <= p)]
    ensures DoAll(s, [Seek(p), GetByte]).1 == [Number(0), if p < |s.file| then Byte(s.file[p]) else Nil]
  {
    Two(s, Seek(p), Pos);
    Two(s, Seek(p), ReadAll);
    Two(s, Seek(p), Eof);
    Two(s, Seek(p), GetByte);
  }

  /** The position grows by exactly the bytes read, falls by those pushed back, and the file stays. */
  lemma {:induction false} PositionMoves(s: Stream, op: Op) returns (a: int, b: int, r: Result)
    requires Reads(op) || op.Unget? || op.Eof?
    ensures DoAll(s, [Pos, op, Pos]) == (DoAll(s, [Pos, op, Pos]).0, [Number(a), r, Number(b)])
    ensures Reads(op) || op.Eof? ==> b == a + |HandedOut(r)|
    ensures op.Unget? ==> b == a - (if |op.bytes| <= SHRT_MAX then |op.bytes| else 0)
    ensures DoAll(s, [Pos, op, Pos]).0.file == s.file
  {
    hide LineLength;
    Three(s, Pos, op, Pos);
    a, r, b := s.pos, Do(s, op).1, Do(s, op).0.pos;
  }

  // ---------------------------------------------------------------- reading

  /** Whatever way a part is read, the rest follows it without gap or overlap. */
  lemma {:induction false} ReadsInOrder(s: Stream, op: Op) returns (r: Result, rest: seq<byte>)
    requires Reads(op)
    ensures DoAll(s, [op, ReadAll]).1 == [r, Bytes(rest)]
    ensures DoAll(s, [ReadAll]).1 == [Bytes(HandedOut(r) + rest)]
  {
    hide LineLength;
    Two(s, op, ReadAll);
    r, rest := Do(s, op).1, Do(s, op).0.unread;
    assert HandedOut(r) + rest == s.unread;
    One(s, ReadAll);
  }

  /** How much is read: a byte, or as many as asked for, as far as there are any; and nil exactly at the
      end, but for a read of everything or of nothing. */
  lemma {:induction false} ReadsEnough(s: Stream, n: nat) returns (all: seq<byte>)
    ensures DoAll(s, [ReadAll]).1 == [Bytes(all)]
    ensures DoAll(s, [GetByte]).1 == [if all == [] then Nil else Byte(all[0])]
    ensures DoAll(s, [GetChar]).1 == [if all == [] then Nil else Bytes([all[0]])]
    ensures DoAll(s, [Eof]).1 == [Flag(all == [])]
    ensures DoAll(s, [Read(n)]).1 == [if n == 0 then Bytes([]) else if all == [] then Nil
                                      else Bytes(if n <= |all| then all[..n] else all)]
  {
    all := s.unread;
    One(s, ReadAll);
    One(s, GetByte);
    One(s, GetChar);
    One(s, Eof);
    One(s, Read(n));
    assert |all| <= n ==> all[..|all|] == all;
  }

  /** A line is read up to its first separator, or to the end. */
  lemma {:induction false} ReadsLine(s: Stream, sep: byte) returns (line: seq<byte>, rest: seq<byte>)
    ensures DoAll(s, [ReadAll]).1 == [Bytes(line + rest)]
    ensures DoAll(s, [Gets(sep)]).1 == [if line == [] then Nil else Bytes(line)]
    ensures line == [] ==> rest == []
    ensures rest != [] ==> line[|line| - 1] == sep
    ensures forall j :: 0 <= j < |line| - 1 ==> line[j] != sep
  {
    var k := LineLength(s.unread, [sep]);
    line, rest := s.unread[..k], s.unread[k..];
    One(s, ReadAll);
    One(s, Gets(sep));
    assert line + rest == s.unread;
    if line != [] {
      FirstLine(s.unread, [sep]);
      forall j | 0 <= j < |line| - 1 ensures line[j] != sep {
        assert !FoundAt(line, [sep], j);
        assert line[j..j + 1] == [line[j]];
      }
      if rest != [] { assert line[|line| - 1] == line[|line| - 1..][0]; }
    }
  }

  // ---------------------------------------------------------------- pushing back and writing

  /** What is pushed back is read first, and then what would have been read. */
  lemma {:induction false} PushedBackIsRead(s: Stream, bytes: seq<byte>) returns (all: seq<byte>)
    requires 0 < |bytes| <= SHRT_MAX
    ensures DoAll(s, [ReadAll]).1 == [Bytes(all)]
    ensures DoAll(s, [Op.Unget(bytes), Read(|bytes|), ReadAll]).1 == [Nil, Bytes(bytes), Bytes(all)]
  {
    all := s.unread;
    One(s, ReadAll);
    Three(s, Op.Unget(bytes), Read(|bytes|), ReadAll);
    assert (bytes + all)[..|bytes|] == bytes && (bytes + all)[|bytes|..] == all;
  }

  /** The file with data written at p: no other byte changes, and a gap behind the old end is zeros. */
  predicate WrittenAt(file: seq<byte>, p: nat, data: seq<byte>, file': seq<byte>) {
    && |file'| == (if p + |data| <= |file| then |file| else p + |data|)
    && forall k :: 0 <= k < |file'| ==>
         file'[k] == if p <= k < p + |data| then data[k - p] else if k < |file| then file[k] else 0
  }

  /** What is written at a position is read there again. */
  lemma {:induction false} WrittenIsRead(s: Stream, p: nat, data: seq<byte>)
    requires data != []
    ensures DoAll(s, [Seek(p), Write(data)]).1 == [Number(0), Number(|data|)]
    ensures var t := DoAll(s, [Seek(p), Write(data)]).0;
            && WrittenAt(s.file, p, data, t.file)
            && DoAll(t, [Seek(p), Read(|data|)]).1 == [Number(0), Bytes(data)]
            && DoAll(t, [Pos]).1 == [Number(p + |data|)]
  {
    hide Overwrite, DoAll, WrittenAt;
    Two(s, Seek(p), Write(data));
    var t := DoAll(s, [Seek(p), Write(data)]).0;
    OverwriteBytes(s.file, p, data);
    assert t.file == Overwrite(s.file, p, data) && t.pos == p + |data|;
    WrittenPart(s.file, p, data, t.file);
    Two(t, Seek(p), Read(|data|));
    One(t, Pos);
  }

  /** A write goes to the reported position, after reading ahead and pushing back alike; before the start
      of the file it is an error and writes nothing. */
  lemma {:induction false} WritesAtPosition(s: Stream, data: seq<byte>) returns (a: int, t: Stream)
    requires data != []
    ensures DoAll(s, [Pos, Write(data)]) == (t, [Number(a), if 0 <= a then Number(|data|) else Error])
    ensures if 0 <= a then WrittenAt(s.file, a, data, t.file) else t.file == s.file
    ensures DoAll(t, [Pos]).1 == [Number(if 0 <= a then a + |data| else a)]
  {
    hide Overwrite, WrittenAt;
    Two(s, Pos, Write(data));
    a, t := s.pos, Do(s, Write(data)).0;
    One(t, Pos);
    if 0 <= a { OverwriteBytes(s.file, a, data); }
  }

  lemma {:induction false} WrittenPart(file: seq<byte>, p: nat, data: seq<byte>, file': seq<byte>)
    requires WrittenAt(file, p, data, file')
    ensures p + |data| <= |file'| && Tail(file', p)[..|data|] == data
  {
    var part := file'[p..][..|data|];
    assert forall k :: 0 <= k < |data| ==> part[k] == file'[p + k] == data[k];
  }

  lemma {:induction false} OverwriteBytes(file: seq<byte>, p: nat, data: seq<byte>)
    requires data != []
    ensures WrittenAt(file, p, data, Overwrite(file, p, data))
  {
  }

  // ---------------------------------------------------------------- the same of the buffered object

  /** A buffered object that has been used in any way is where it is sent. */
  method Rewind(io: Io, p: nat) returns (answers: seq<Result>)
    requires io.Valid() && io.Coherent()
    modifies io, io.mem
    ensures answers == [Number(0), Number(p), Bytes(if p <= |io.file| then io.file[p..] else [])]
    ensures io.Valid() && io.Coherent() && io.file == old(io.file)
  {
    hide Do;
    ghost var s := io.AsStream();
    answers := io.Run([Seek(p), Pos, ReadAll]);
    Three(s, Seek(p), Pos, ReadAll);
    assert [Seek(p), Pos, ReadAll][..3] == [Seek(p), Pos, ReadAll];
    RewindIs(s, p);
  }

  lemma {:induction false} RewindIs(s: Stream, p: nat)
    ensures DoAll(s, [Seek(p), Pos, ReadAll]).1
            == [Number(0), Number(p), Bytes(if p <= |s.file| then s.file[p..] else [])]
    ensures DoAll(s, [Seek(p), Pos, ReadAll]).0.file == s.file
  {
    Three(s, Seek(p), Pos, ReadAll);
  }

  /** What it writes at a position is in the file there, and is read there. */
  method WriteAndRead(io: Io, p: nat, data: seq<byte>) returns (answers: seq<Result>)
    requires io.Valid() && io.Coherent() && data != []
    modifies io, io.mem
    ensures answers == [Number(0), Bytes(data)]
    ensures WrittenAt(old(io.file), p, data, io.file)
  {
    hide Do;
    ghost var s := io.AsStream();
    var first := io.Run([Seek(p), Write(data)]);
    assert [Seek(p), Write(data)][..2] == [Seek(p), Write(data)];
    WrittenIsRead(s, p, data);
    ghost var t := io.AsStream();
    answers := io.Run([Seek(p), Read(|data|)]);
    assert [Seek(p), Read(|data|)][..2] == [Seek(p), Read(|data|)];
    SeekReadKeeps(t, p, |data|);
  }

  lemma {:induction false} SeekReadKeeps(s: Stream, p: nat, n: nat)
    ensures DoAll(s, [Seek(p), Read(n)]).0.file == s.file
  {
    Two(s, Seek(p), Read(n));
  }
}
