/** `struct picorb_io`: reads go through a buffer, of which mem[start..start + len] is unread. The
    operating system is a file with an offset; its reads may stop short. */
module BufferedIo {
  import opened ByteStream
  import opened Lines

  const BUF_SIZE := 4096

  lemma {:induction false} DropFront(b: seq<byte>, t: seq<byte>, n: nat)
    requires n <= |b|
    ensures (b + t)[n..] == b[n..] + t && (b + t)[..n] == b[..n]
  {}

  class Io {
    // the operating system's side
    var file: seq<byte>
    var offset: nat
    // the library's side
    var mem: array<byte>
    var start: int
    var len: int
    var eof: bool

    ghost predicate Valid()
      reads this
    {
      && BUF_SIZE <= mem.Length
      && 0 <= start && 0 <= len <= SHRT_MAX && start + len <= mem.Length
    }

    /** The unread part of the buffer. */
    function Buffered(): (b: seq<byte>)
      requires Valid()
      reads this, mem
      ensures |b| == len
    {
      mem[start..start + len]
    }

    /** The unbuffered stream that this one stands for. */
    function AsStream(): Stream
      requires Valid()
      reads this, mem
    {
      Stream(file, offset - len, Buffered() + Tail(file, offset))
    }

    /** The end-of-file flag, once set, hides whatever the buffer holds. */
    predicate Coherent()
      requires Valid()
      reads this, mem
    {
      eof ==> AsStream().unread == []
    }

    constructor (file: seq<byte>)
      ensures Valid() && Coherent() && AsStream() == Stream(file, 0, file)
      ensures fresh(mem) && start == len == 0 && !eof
    {
      this.file, offset := file, 0;
      mem := new byte[BUF_SIZE](_ => 0);
      start, len, eof := 0, 0, false;
    }

    /** `read(2)`: nothing at the end, otherwise at least one byte and at most as many as asked for. */
    method SysRead(n: nat) returns (data: seq<byte>)
      requires 0 < n
      modifies this`offset
      ensures data <= Tail(file, old(offset)) && |data| <= n && offset == old(offset) + |data|
      ensures data == [] <==> Tail(file, old(offset)) == []
      ensures Tail(file, offset) == Tail(file, old(offset))[|data|..]
    {
      var rest := Tail(file, offset);
      if rest == [] { return []; }
      var k: nat :| 1 <= k <= n && k <= |rest|;
      data := rest[..k];
      offset := offset + k;
    }

    /** `io_fill_buf`. */
    method FillBuf()
      requires Valid()
      modifies this`offset, this`start, this`len, this`eof, mem
      ensures Valid() && AsStream() == old(AsStream())
      ensures old(len) > 0 ==> Buffered() == old(Buffered()) && eof == old(eof) && start == old(start)
      ensures old(len) == 0 ==> eof == (old(eof) || AsStream().unread == [])
      ensures len == 0 <==> AsStream().unread == []
      ensures !eof ==> len > 0
    {
      hide Tail;
      if len > 0 { return; }
      ghost var rest := Tail(file, offset);
      assert Buffered() + rest == rest;
      var data := SysRead(BUF_SIZE);
      Load(data);
      if data == [] { eof := true; }
      assert data + rest[|data|..] == rest;
    }

    /** The buffer now holds data and nothing else. */
    method Load(data: seq<byte>)
      requires |data| <= mem.Length && |data| <= SHRT_MAX && BUF_SIZE <= mem.Length
      modifies this`start, this`len, mem
      ensures Valid() && Buffered() == data && len == |data|
    {
      forall i | 0 <= i < |data| { mem[i] := data[i]; }
      start, len := 0, |data|;
    }

    /** `io_buf_shift`, and the bytes passed over. */
    method Take(n: nat) returns (data: seq<byte>)
      requires Valid() && n <= len
      modifies this`start, this`len
      ensures len == old(len) - n && start == old(start) + n
      ensures Valid() && AsStream() == Advance(old(AsStream()), n)
      ensures data == old(AsStream()).unread[..n]
    {
      data := mem[start..start + n];
      ghost var b, t := Buffered(), Tail(file, offset);
      start, len := start + n, len - n;
      assert Buffered() == b[n..] && data == b[..n];
      DropFront(b, t, n);
    }

    /** outbuf is what has been read since the stream was s. */
    ghost predicate Accumulated(s: Stream, outbuf: seq<byte>)
      requires Valid()
      reads this, mem
    {
      |outbuf| <= |s.unread| && outbuf == s.unread[..|outbuf|] && AsStream() == Advance(s, |outbuf|)
    }

    /** `io_buf_cat`. */
    method Cat(outbuf: seq<byte>, n: nat, ghost s: Stream) returns (out: seq<byte>)
      requires Valid() && n <= len && Accumulated(s, outbuf)
      modifies this`start, this`len
      ensures Valid() && Accumulated(s, out) && |out| == |outbuf| + n && len == old(len) - n && start == old(start) + n
      ensures AsStream() == Advance(old(AsStream()), n)
    {
      assert len <= |AsStream().unread| == |s.unread| - |outbuf|;
      AdvanceTwice(s, |outbuf|, n);
      var data := Take(n);
      out := outbuf + data;
    }

    /** `io_buf_cat_all`: the whole buffer, which then starts over. */
    method CatAll(outbuf: seq<byte>, ghost s: Stream) returns (out: seq<byte>)
      requires Valid() && Accumulated(s, outbuf)
      modifies this`start, this`len
      ensures Valid() && Accumulated(s, out) && |out| == |outbuf| + old(len) && len == 0
      ensures AsStream() == Advance(old(AsStream()), old(len))
    {
      out := Cat(outbuf, len, s);
      start := 0;
      assert Buffered() == [];
    }

    lemma {:induction false} AllRead(s: Stream, outbuf: seq<byte>)
      requires Valid() && Accumulated(s, outbuf) && AsStream().unread == []
      ensures outbuf == s.unread && AsStream() == Advance(s, |s.unread|)
    {}

    lemma {:induction false} Done(s: Stream, outbuf: seq<byte>)
      requires Valid() && Accumulated(s, outbuf)
      ensures |outbuf| <= |s.unread| && outbuf == s.unread[..|outbuf|] && AsStream() == Advance(s, |outbuf|)
    {}

    lemma {:induction false} NothingRead()
      requires Valid()
      ensures Accumulated(AsStream(), [])
    {}

    method GetByte() returns (r: Result)
      requires Valid()
      modifies this`offset, this`start, this`len, this`eof, mem
      ensures Valid()
      ensures old(Coherent()) ==> Coherent() && (AsStream(), r) == Do(old(AsStream()), Op.GetByte)
      ensures !old(Coherent()) ==> r == Nil && AsStream() == old(AsStream())
    {
      FillBuf();
      if eof { return Nil; }
      var data := Take(1);
      r := Byte(data[0]);
    }

    method GetChar() returns (r: Result)
      requires Valid()
      modifies this`offset, this`start, this`len, this`eof, mem
      ensures Valid()
      ensures old(Coherent()) ==> Coherent() && (AsStream(), r) == Do(old(AsStream()), Op.GetChar)
      ensures !old(Coherent()) ==> r == Nil && AsStream() == old(AsStream())
    {
      FillBuf();
      if eof { return Nil; }
      ghost var s := AsStream();
      var data := Take(1);
      assert data == [s.unread[0]];
      r := Bytes(data);
    }

    /** `read(length)`. */
    method Read(length: nat) returns (r: Result)
      requires Valid()
      modifies this`offset, this`start, this`len, this`eof, mem
      ensures Valid()
      ensures old(Coherent()) ==> Coherent() && (AsStream(), r) == Do(old(AsStream()), Op.Read(length))
      ensures !old(Coherent()) ==> r == (if length == 0 then Bytes([]) else Nil) && AsStream() == old(AsStream())
      ensures !old(eof) && 0 < length <= old(len) ==> start == old(start) + length && len == old(len) - length
    {
      hide Tail, Accumulated;
      if length == 0 { return Bytes([]); }
      ghost var s := AsStream();
      var outbuf, left := [], length;
      NothingRead();
      while true
        invariant Valid() && (old(Coherent()) ==> Coherent()) && (!old(Coherent()) ==> outbuf == [] && eof)
        invariant Accumulated(s, outbuf) && 0 < left && |outbuf| + left == length
        invariant left == length ==> start == old(start) && len == old(len) && eof == old(eof)
        invariant !old(eof) && length <= old(len) ==> left == length
        decreases |AsStream().unread|
      {
        Refill(s, outbuf);
        if eof || left == 0 {
          if old(Coherent()) { AllRead(s, outbuf); }
          return if outbuf == [] then Nil else Bytes(outbuf);
        }
        if len < left {
          left := left - len;
          outbuf := CatAll(outbuf, s);
        } else {
          outbuf := Cat(outbuf, left, s);
          return Bytes(outbuf);
        }
      }
    }

    /** `io_fill_buf` in the middle of a read. */
    method Refill(ghost s: Stream, outbuf: seq<byte>)
      requires Valid() && Accumulated(s, outbuf)
      modifies this`offset, this`start, this`len, this`eof, mem
      ensures Valid() && AsStream() == old(AsStream()) && Accumulated(s, outbuf)
      ensures old(Coherent()) ==> Coherent() && (eof <==> AsStream().unread == [])
      ensures !old(Coherent()) ==> eof
      ensures len == 0 <==> AsStream().unread == []
      ensures old(len) > 0 ==> len == old(len) && eof == old(eof) && start == old(start)
    {
      FillBuf();
    }

    /** `io_read_all`. */
    method ReadAll() returns (r: Result)
      requires Valid()
      modifies this`offset, this`start, this`len, this`eof, mem
      ensures Valid()
      ensures old(Coherent()) ==> Coherent() && (AsStream(), r) == Do(old(AsStream()), Op.ReadAll)
      ensures !old(Coherent()) ==> r == Bytes([]) && AsStream() == old(AsStream())
    {
      hide Tail, Accumulated;
      ghost var s := AsStream();
      var outbuf := [];
      NothingRead();
      while true
        invariant Valid() && (old(Coherent()) ==> Coherent()) && (!old(Coherent()) ==> outbuf == [] && eof)
        invariant Accumulated(s, outbuf)
        decreases |AsStream().unread|
      {
        Refill(s, outbuf);
        if eof {
          if old(Coherent()) { AllRead(s, outbuf); }
          return Bytes(outbuf);
        }
        outbuf := CatAll(outbuf, s);
      }
    }

    /** `io_find_index`: the first separator that lies within the buffer. */
    method FindIndex(sep: seq<byte>) returns (i: int)
      requires Valid() && sep != []
      ensures i == -1 ==> forall j :: 0 <= j ==> !FoundAt(Buffered(), sep, j)
      ensures i != -1 ==> 0 <= i && FoundAt(Buffered(), sep, i)
      ensures forall j :: 0 <= j < i ==> !FoundAt(Buffered(), sep, j)
    {
      var limit := if len - |sep| + 1 < 0 then 0 else len - |sep| + 1;
      for n := 0 to limit
        invariant forall j :: 0 <= j < n ==> !FoundAt(Buffered(), sep, j)
      {
        SliceOfSlice(mem[..], start, start + len, n, n + |sep|);
        assert mem[start + n] == mem[start + n..start + n + |sep|][0];
        if mem[start + n] == sep[0] && (|sep| == 1 || mem[start + n..start + n + |sep|] == sep) {
          assert |sep| == 1 ==> mem[start + n..start + n + |sep|] == sep;
          return n;
        }
      }
      return -1;
    }

    /** The same for a separator of one byte. */
    method FindByte(sep: byte) returns (i: int)
      requires Valid()
      ensures i == -1 ==> forall j :: 0 <= j < len ==> Buffered()[j] != sep
      ensures i != -1 ==> 0 <= i < len && Buffered()[i] == sep && forall j :: 0 <= j < i ==> Buffered()[j] != sep
    {
      i := FindIndex([sep]);
      assert forall j :: 0 <= j < len ==> (FoundAt(Buffered(), [sep], j) <==> Buffered()[j] == sep) by {
        forall j | 0 <= j < len ensures FoundAt(Buffered(), [sep], j) <==> Buffered()[j] == sep {
          assert Buffered()[j..j + 1] == [Buffered()[j]];
        }
      }
    }

    /** `gets` with a one-byte separator. */
    method Gets(sep: byte) returns (r: Result)
      requires Valid()
      modifies this`offset, this`start, this`len, this`eof, mem
      ensures Valid()
      ensures old(Coherent()) ==> Coherent() && (AsStream(), r) == Do(old(AsStream()), Op.Gets(sep))
      ensures !old(Coherent()) ==> r == Nil && AsStream() == old(AsStream())
    {
      hide Tail, LineLength, FoundAt, FirstAt, Accumulated, AsStream, Buffered;
      ghost var s := AsStream();
      EmptyLine(s.unread, sep);
      FillBuf();
      if eof { return Nil; }
      NothingRead();
      var outbuf := [];
      while true
        invariant Valid() && Coherent() && old(Coherent()) && !eof && len > 0
        invariant Accumulated(s, outbuf) && |outbuf| <= |s.unread|
        invariant forall j :: 0 <= j < |outbuf| ==> s.unread[j] != sep
        decreases |s.unread| - |outbuf|
      {
        BufferedNext(s, outbuf);
        var i := FindByte(sep);
        if i >= 0 {
          LineEndsHere(s.unread, sep, |outbuf| + i);
          outbuf := Cat(outbuf, i + 1, s);
          Done(s, outbuf);
          return Bytes(outbuf);
        }
        ghost var n := |outbuf| + len;
        forall k | |outbuf| <= k < n ensures s.unread[k] != sep {
          assert Buffered()[k - |outbuf|] != sep;
        }
        outbuf := CatAll(outbuf, s);
        assert |outbuf| == n;
        Refill(s, outbuf);
        Done(s, outbuf);
        if eof {
          AllRead(s, outbuf);
          NoLineEnd(s.unread, sep);
          return if outbuf == [] then Nil else Bytes(outbuf);
        }
      }
    }

    /** The buffer holds the bytes that follow those already read. */
    lemma {:induction false} BufferedNext(s: Stream, outbuf: seq<byte>)
      requires Valid() && Accumulated(s, outbuf)
      ensures |outbuf| + len <= |s.unread|
      ensures forall k :: |outbuf| <= k < |outbuf| + len ==> s.unread[k] == Buffered()[k - |outbuf|]
    {
      var b, t := Buffered(), Tail(file, offset);
      forall k | |outbuf| <= k < |outbuf| + len ensures s.unread[k] == b[k - |outbuf|] {
        assert s.unread[|outbuf|..][k - |outbuf|] == (b + t)[k - |outbuf|];
      }
    }

    /** What `ungetc` needs of the buffer: if the block has to be reallocated, the unread bytes must lie
        within the new block, which holds only the pushed and the unread bytes. */
    predicate Movable(bytes: seq<byte>)
      reads this
    {
      |bytes| <= SHRT_MAX && |bytes| > BUF_SIZE - len ==> start <= |bytes|
    }

    /** `ungetc`. The length is a 16-bit integer and wraps around if it is exceeded. A block that is
        reallocated may be too short for the unread bytes: then they are lost. */
    method Unget(bytes: seq<byte>) returns (r: Result, inBlock: bool)
      requires Valid()
      modifies this`mem, this`start, this`len, mem
      ensures mem == old(mem) || fresh(mem)
      ensures inBlock <==> old(Movable(bytes))
      ensures |bytes| > SHRT_MAX ==> len == old(len)
      ensures |bytes| <= SHRT_MAX ==>
        start == 0 &&
        len == (if old(len) + |bytes| <= SHRT_MAX then old(len) + |bytes| else old(len) + |bytes| - 0x1_0000)
      ensures Valid() <==> |bytes| > SHRT_MAX || old(len) + |bytes| <= SHRT_MAX
      ensures Valid() && inBlock ==> (AsStream(), r) == Do(old(AsStream()), Op.Unget(bytes))
      ensures Valid() && |bytes| <= SHRT_MAX && inBlock && old(Coherent()) ==> (Coherent() <==> !eof || bytes == [])
      ensures Valid() && |bytes| <= SHRT_MAX ==> r == Nil && bytes <= Buffered()
    {
      hide Tail, Buffered;
      inBlock := true;
      if |bytes| > SHRT_MAX { return Error, true; }
      inBlock := MakeRoom(bytes);
      PutFront(bytes);
      if 0 <= len && inBlock { PushedFront(bytes, old(Buffered()), Tail(file, offset)); }
      r := Nil;
    }

    /** The pushed bytes come in front of the unread ones. */
    method PutFront(bytes: seq<byte>)
      requires Valid() && |bytes| <= SHRT_MAX && len + |bytes| <= mem.Length
      modifies this`start, this`len, mem
      ensures start == 0
      ensures len == (if old(len) + |bytes| <= SHRT_MAX then old(len) + |bytes| else old(len) + |bytes| - 0x1_0000)
      ensures Valid() <==> old(len) + |bytes| <= SHRT_MAX
      ensures Valid() ==> Buffered() == bytes + old(Buffered())
    {
      MoveUp(bytes);
      start := 0;
      len := if len + |bytes| <= SHRT_MAX then len + |bytes| else len + |bytes| - 0x1_0000;
    }

    /** False if the unread bytes do not lie within the new block; what is read there is arbitrary. */
    method MakeRoom(bytes: seq<byte>) returns (inBlock: bool)
      requires Valid() && |bytes| <= SHRT_MAX
      modifies this`mem, this`start
      ensures Valid() && (mem == old(mem) || fresh(mem)) && len + |bytes| <= mem.Length
      ensures inBlock <==> old(Movable(bytes))
      ensures inBlock ==> Buffered() == old(Buffered())
    {
      inBlock := true;
      if |bytes| > BUF_SIZE - len {
        inBlock := start <= |bytes|;
        if inBlock {
          Reallocate(len + |bytes|);
        } else {
          mem, start := new byte[len + |bytes|], 0;
        }
      }
    }

    /** `realloc`: a block of the given size that keeps the bytes it has room for. */
    method Reallocate(size: nat)
      requires Valid() && start + len <= size && BUF_SIZE < size
      modifies this`mem
      ensures Valid() && fresh(mem) && mem.Length == size && Buffered() == old(Buffered())
    {
      var bigger := new byte[size](_ => 0);
      var kept := if size <= mem.Length then size else mem.Length;
      forall i | 0 <= i < kept { bigger[i] := mem[i]; }
      ghost var unread := Buffered();
      mem := bigger;
      assert Buffered() == unread;
    }

    /** `memmove` of the unread bytes and `memcpy` of the pushed ones in front of them. */
    method MoveUp(bytes: seq<byte>)
      requires Valid() && len + |bytes| <= mem.Length
      modifies mem
      ensures mem[..|bytes| + len] == bytes + old(Buffered())
    {
      var unread := mem[start..start + len];
      forall i | 0 <= i < len { mem[|bytes| + i] := unread[i]; }
      forall i | 0 <= i < |bytes| { mem[i] := bytes[i]; }
    }

    method Pos() returns (r: Result)
      requires Valid()
      ensures (AsStream(), r) == Do(AsStream(), Op.Pos)
    {
      r := Number(offset - len);
    }

    method Eof() returns (r: Result)
      requires Valid()
      modifies this`offset, this`start, this`len, this`eof, mem
      ensures Valid()
      ensures old(Coherent()) ==> Coherent() && (AsStream(), r) == Do(old(AsStream()), Op.Eof)
      ensures !old(Coherent()) ==> r == Flag(true) && AsStream() == old(AsStream())
    {
      if eof { return Flag(true); }
      if len > 0 { return Flag(false); }
      FillBuf();
      r := Flag(eof);
    }

    /** `seek` to an absolute target. The buffer is dropped before the target is looked at. */
    method Seek(target: int) returns (r: Result)
      requires Valid()
      modifies this`offset, this`start, this`len, this`eof
      ensures Valid()
      ensures 0 <= target ==> Coherent() && (AsStream(), r) == Do(old(AsStream()), Op.Seek(target))
      ensures target < 0 ==> r == Error && AsStream() == Stream(file, old(offset), Tail(file, old(offset)))
    {
      start, len := 0, 0;
      assert Buffered() == [];
      if target < 0 { return Error; }
      offset, eof := target, false;
      assert Buffered() + Tail(file, offset) == Tail(file, offset);
      r := Number(0);
    }

    /** `seek` relative to the current position. It counts from the operating system's offset, so it
        moves relative to the reported position exactly when nothing is buffered. A target before the
        start is rejected, but the buffer is dropped before. */
    method SeekRelative(delta: int) returns (r: Result)
      requires Valid()
      modifies this`offset, this`start, this`len, this`eof
      ensures Valid() && AsStream().unread == Tail(file, offset) && len == 0
      ensures r == if 0 <= old(offset) + delta then Number(0) else Error
      ensures r != Error ==> Coherent() && (AsStream().pos == old(AsStream()).pos + delta <==> old(len) == 0)
      ensures r == Error ==> offset == old(offset) && eof == old(eof)
    {
      start, len := 0, 0;
      assert Buffered() == [];
      assert Buffered() + Tail(file, offset) == Tail(file, offset);
      if offset + delta < 0 { return Error; }
      offset, eof := offset + delta, false;
      assert Buffered() + Tail(file, offset) == Tail(file, offset);
      r := Number(0);
    }

    /** `write`: the offset is first moved back over what was read ahead or pushed back. */
    method Write(bytes: seq<byte>) returns (r: Result)
      requires Valid()
      modifies this`file, this`offset, this`start, this`len
      ensures Valid() && (AsStream(), r) == Do(old(AsStream()), Op.Write(bytes))
      ensures old(Coherent()) ==> Coherent()
    {
      hide Tail, Overwrite;
      if len > 0 {
        if offset - len < 0 { return Error; }
        offset := offset - len;
        start, len := 0, 0;
      }
      assert Buffered() == [];
      WriteAtEnd(file, offset, bytes);
      file := Overwrite(file, offset, bytes);
      offset := offset + |bytes|;
      assert Buffered() + Tail(file, offset) == Tail(file, offset);
      r := Number(|bytes|);
    }

    /** A push-back that `Run` can carry out: rejected as too long, or within all limits and not after
        the end of the file was met. */
    predicate CanUnget(bytes: seq<byte>)
      reads this
    {
      |bytes| > SHRT_MAX || (Movable(bytes) && len + |bytes| <= SHRT_MAX && (!eof || bytes == []))
    }

    /** Any interleaving of operations answers as the unbuffered stream does and leaves the same stream
        and file, however the operating system splits its reads; up to the first push-back, if any, that
        goes beyond the limits of `CanUnget`. */
    method Run(ops: seq<Op>) returns (rs: seq<Result>)
      requires Valid() && Coherent()
      modifies this, mem
      ensures |rs| <= |ops| && Valid() && Coherent() && (mem == old(mem) || fresh(mem))
      ensures (AsStream(), rs) == DoAll(old(AsStream()), ops[..|rs|])
      ensures |rs| < |ops| ==> ops[|rs|].Unget? && !CanUnget(ops[|rs|].bytes)
    {
      hide Do, AsStream, Coherent;
      rs := [];
      for n := 0 to |ops|
        invariant |rs| == n && Valid() && Coherent() && (mem == old(mem) || fresh(mem))
        invariant (AsStream(), rs) == DoAll(old(AsStream()), ops[..n])
      {
        if ops[n].Unget? && !CanUnget(ops[n].bytes) { return; }
        var r := Perform(ops[n]);
        DoAllThen(old(AsStream()), ops[..n], ops[n]);
        assert ops[..n + 1] == ops[..n] + [ops[n]];
        rs := rs + [r];
      }
      assert ops[..|ops|] == ops;
    }

    method Perform(op: Op) returns (r: Result)
      requires Valid() && Coherent() && (op.Unget? ==> CanUnget(op.bytes))
      modifies this, mem
      ensures Valid() && Coherent() && (mem == old(mem) || fresh(mem))
      ensures (AsStream(), r) == Do(old(AsStream()), op)
    {
      hide AsStream;
      match op
      case GetByte => r := GetByte();
      case GetChar => r := GetChar();
      case Read(n) => r := Read(n);
      case ReadAll => r := ReadAll();
      case Gets(sep) => r := Gets(sep);
      case Unget(bytes) =>
        var inBlock;
        r, inBlock := Unget(bytes);
      case Pos => r := Pos();
      case Eof => r := Eof();
      case Seek(p) => r := Seek(p);
      case Write(bytes) => r := Write(bytes);
    }
  }

  lemma {:induction false} DoAllThen(s: Stream, ops: seq<Op>, op: Op)
    ensures var (s1, rs) := DoAll(s, ops);
            var (s2, r) := Do(s1, op);
            DoAll(s, ops + [op]) == (s2, rs + [r])
    decreases |ops|
  {
    hide Do;
    if ops == [] {
      assert ops + [op] == [op] && [op][1..] == [];
      assert [Do(s, op).1] + [] == [] + [Do(s, op).1];
    } else {
      assert ops[0] == (ops + [op])[0];
      var (s1, r1) := Do(s, ops[0]);
      var (s2, rs) := DoAll(s1, ops[1..]);
      DoAllThen(s1, ops[1..], op);
      assert (ops + [op])[1..] == ops[1..] + [op];
      assert [r1] + (rs + [Do(s2, op).1]) == ([r1] + rs) + [Do(s2, op).1];
    }
  }

  /** Writing at or behind the end leaves nothing to read. */
  lemma {:induction false} SliceOfSlice<A>(s: seq<A>, from: nat, to: nat, i: nat, j: nat)
    requires from <= to <= |s| && i <= j <= to - from
    ensures s[from..to][i..j] == s[from + i..from + j]
  {
    var a, b := s[from..to][i..j], s[from + i..from + j];
    assert |a| == |b|;
    forall k | 0 <= k < |a| ensures a[k] == b[k] {
      assert a[k] == s[from..to][i + k] == s[from + (i + k)];
      assert b[k] == s[(from + i) + k];
    }
  }

  /** A block that has grown can shrink below its unread bytes: from a new object, 20000 bytes pushed
      back, 15000 of them read, and 1000 pushed back, well within the 16-bit length. */
  method PushBackBeyondBlock() returns (io: Io, bytes: seq<byte>, inBlock: bool)
    ensures fresh(io) && |bytes| == 1000 && io.len == 6000 && !inBlock
  {
    hide Io.AsStream, Do;
    io := new Io([]);
    var r;
    r, inBlock := io.Unget(seq(20000, i => 0));
    r := io.Read(15000);
    assert io.start == 15000 && io.len == 5000;
    bytes := seq(1000, i => 0);
    r, inBlock := io.Unget(bytes);
  }

  lemma {:induction false} WriteAtEnd(file: seq<byte>, at: nat, data: seq<byte>)
    ensures Tail(file, at) == [] ==> Tail(Overwrite(file, at, data), at + |data|) == []
  {}

  lemma {:induction false} PushedFront(bytes: seq<byte>, unread: seq<byte>, tail: seq<byte>)
    ensures (bytes + unread) + tail == bytes + (unread + tail)
    ensures bytes == [] ==> bytes + unread == unread
  {}

  lemma {:induction false} AdvanceTwice(s: Stream, a: nat, b: nat)
    requires a + b <= |s.unread|
    ensures Advance(Advance(s, a), b) == Advance(s, a + b)
    ensures s.unread[..a] + Advance(s, a).unread[..b] == s.unread[..a + b]
  {
    assert s.unread[a..][b..] == s.unread[a + b..];
  }

  lemma {:induction false} EmptyLine(text: seq<byte>, sep: byte)
    ensures LineLength(text, [sep]) == 0 <==> text == []
  {}

  lemma {:induction false} LineEndsHere(text: seq<byte>, sep: byte, i: nat)
    requires i < |text| && text[i] == sep && forall j :: 0 <= j < i ==> text[j] != sep
    ensures LineLength(text, [sep]) == i + 1
  {
    assert text[i..i + 1] == [sep];
    forall j | 0 <= j < i ensures !FoundAt(text, [sep], j) {
      assert text[j..j + 1][0] == text[j];
    }
    FirstAtIs(text, [sep], i);
  }

  lemma {:induction false} NoLineEnd(text: seq<byte>, sep: byte)
    requires forall j :: 0 <= j < |text| ==> text[j] != sep
    ensures LineLength(text, [sep]) == |text|
  {
    forall j | 0 <= j < |text| ensures !FoundAt(text, [sep], j) {
      assert text[j..j + 1][0] == text[j];
    }
    NoneAt(text, [sep]);
  }
}
