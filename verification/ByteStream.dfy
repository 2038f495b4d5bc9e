/** The specification that buffered IO is measured against: a byte stream without a read buffer. */
module ByteStream {
  import opened Lines

  newtype byte = x: int | 0 <= x < 256

  /** The file, the reported position, and the bytes still to be read: those pushed back and not read
      again, then the rest of the file. */
  datatype Stream = Stream(file: seq<byte>, pos: int, unread: seq<byte>)

  datatype Op =
    | GetByte | GetChar | Read(length: nat) | ReadAll | Gets(separator: byte)
    | Unget(bytes: seq<byte>) | Pos | Eof | Seek(target: nat) | Write(bytes: seq<byte>)

  datatype Result = Nil | Byte(b: byte) | Bytes(s: seq<byte>) | Number(n: int) | Flag(on: bool) | Error

  const SHRT_MAX := 32767

  function Tail(file: seq<byte>, at: nat): seq<byte> {
    if at <= |file| then file[at..] else []
  }

  /** Bytes written at an offset; a gap behind the end of the file reads as zeros. */
  function Overwrite(file: seq<byte>, at: nat, data: seq<byte>): (r: seq<byte>)
    ensures data != [] ==> |r| == if at + |data| <= |file| then |file| else at + |data|
  {
    if data == [] then file
    else if at <= |file| then file[..at] + data + Tail(file, at + |data|)
    else file + seq(at - |file|, i => 0) + data
  }

  /** n bytes are consumed. */
  function Advance(s: Stream, n: nat): Stream
    requires n <= |s.unread|
  {
    s.(pos := s.pos + n, unread := s.unread[n..])
  }

  function Do(s: Stream, op: Op): (Stream, Result) {
    match op
    case GetByte => if s.unread == [] then (s, Nil) else (Advance(s, 1), Byte(s.unread[0]))
    case GetChar => if s.unread == [] then (s, Nil) else (Advance(s, 1), Bytes([s.unread[0]]))
    case Read(n) =>
      var k := if n <= |s.unread| then n else |s.unread|;
      if n == 0 then (s, Bytes([]))
      else if k == 0 then (s, Nil)
      else (Advance(s, k), Bytes(s.unread[..k]))
    case ReadAll => (Advance(s, |s.unread|), Bytes(s.unread))
    case Gets(sep) =>
      var k := LineLength(s.unread, [sep]);
      if k == 0 then (s, Nil) else (Advance(s, k), Bytes(s.unread[..k]))
    case Unget(bytes) =>
      if |bytes| > SHRT_MAX then (s, Error)
      else (s.(pos := s.pos - |bytes|, unread := bytes + s.unread), Nil)
    case Pos => (s, Number(s.pos))
    case Eof => (s, Flag(s.unread == []))
    case Seek(p) => (Stream(s.file, p, Tail(s.file, p)), Number(0))
    case Write(data) =>
      if s.pos < 0 then (s, Error)
      else
        var file := Overwrite(s.file, s.pos, data);
        (Stream(file, s.pos + |data|, Tail(file, s.pos + |data|)), Number(|data|))
  }

  function DoAll(s: Stream, ops: seq<Op>): (r: (Stream, seq<Result>))
    ensures |r.1| == |ops|
    decreases |ops|
  {
    if ops == [] then (s, [])
    else
      var (s1, r) := Do(s, ops[0]);
      var (s2, rs) := DoAll(s1, ops[1..]);
      (s2, [r] + rs)
  }
}
