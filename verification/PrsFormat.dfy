/** The PRS file: a song is saved as two-byte commands and four-byte waits, and played back from them. */
module PrsFormat {
  import opened MusicTrack
  import opened MusicMerge
  import opened PowersOfTwo
  import ByteStream

  type byte = ByteStream.byte

  const OP_MUTE := 0x10
  const OP_SEND_REG := 0x20
  const OP_SET_PAN := 0x40
  const OP_SET_TIMBRE := 0x50
  const WAIT: byte := 0x70
  const WAIT_LIMIT := 0x100_0000
  const WAIT_MAX: nat := 0xFF_FFFF
  const HEADER_SIZE := 32
  const LENGTH_OFFSET := 8
  const LOOP_START_OFFSET := 12
  const SONGNAME_MAX_LEN := 16
  const CHIP_CLOCK := 2_000_000
  const MIXER := 0x38 // noise off, tone on

  /** A command: the operation in the high half of `op`, the track or register in the low half. */
  datatype Code = Code(op: byte, value: byte)

  function Low(v: int): byte {
    (v % 256) as byte
  }

  // ---------------------------------------------------------------- from events to commands

  function FloorDiv(a: int, d: int): int
    requires d != 0
  {
    if d > 0 then a / d else (-a) / (-d)
  }

  /** A tone period of 0 is divided by, and modulation comes without its second argument. */
  predicate Raises(e: Event) {
    (e.command == Play && e.arg0 == 0) || e.command == Lfo
  }

  function Op2(op: int, reg: int, value: int): Code
    requires 0 <= op <= 0xF0 && op % 16 == 0
  {
    Code((op + reg % 16) as byte, Low(value))
  }

  function SetBit(m: int, k: nat, on: bool): int {
    if (m / Power(k)) % 2 == 1 && !on then m - Power(k)
    else if (m / Power(k)) % 2 == 0 && on then m + Power(k)
    else m
  }

  /** A set bit of the mixer switches off: tone in bits 0 to 2, noise in bits 3 to 5. */
  function MixerAfter(tr: nat, e: Event, mixer: int): int {
    if e.command != Mixer then mixer
    else match e.arg0
      case 0 => SetBit(SetBit(mixer, tr + 3, true), tr, false)
      case 1 => SetBit(SetBit(mixer, tr + 3, false), tr, true)
      case 2 => SetBit(SetBit(mixer, tr, false), tr + 3, false)
      case _ => mixer
  }

  function Codes(tr: nat, e: Event, mixer: int): seq<Code> {
    if Raises(e) then []
    else match e.command
      case Segno => []
      case Legato => []
      case Mute => [Op2(OP_MUTE, tr, e.arg0)]
      case Play =>
        var tone := FloorDiv(CHIP_CLOCK, 32 * e.arg0);
        [Op2(OP_SEND_REG, tr * 2, tone % 256), Op2(OP_SEND_REG, tr * 2 + 1, (tone / 256) % 16)]
      case Volume => [Op2(OP_SEND_REG, tr + 8, e.arg0)]
      case EnvPeriod => [Op2(OP_SEND_REG, 11, e.arg0 % 256), Op2(OP_SEND_REG, 12, (e.arg0 / 256) % 256)]
      case EnvShape => [Op2(OP_SEND_REG, 13, e.arg0)]
      case Timbre => [Op2(OP_SET_TIMBRE, tr, e.arg0)]
      case Pan => [Op2(OP_SET_PAN, tr, e.arg0)]
      case Mixer => [Op2(OP_SEND_REG, 7, mixer)]
      case Noise => [Op2(OP_SEND_REG, 6, e.arg0)]
      case Lfo => []
  }

  /** What one event is saved as. */
  datatype Step = Step(delta: int, segno: bool, codes: seq<Code>)

  function StepOf(item: Item, mixer: int): Step {
    Step(item.delta, item.event.command == Segno,
         Codes(item.track, item.event, MixerAfter(item.track, item.event, mixer)))
  }

  function Steps(items: seq<Item>, mixer: int): (r: seq<Step>)
    ensures |r| == |items|
  {
    if items == [] then []
    else [StepOf(items[0], mixer)] + Steps(items[1..], MixerAfter(items[0].track, items[0].event, mixer))
  }

  function WaitBytes(delta: int): seq<byte> {
    if 0 < delta then [WAIT, Low(delta), Low(delta / 0x100), Low(delta / 0x1_0000)] else []
  }

  function CodeBytes(codes: seq<Code>): (r: seq<byte>)
    ensures |r| == 2 * |codes|
  {
    if codes == [] then [] else [codes[0].op, codes[0].value] + CodeBytes(codes[1..])
  }

  function Encode(steps: seq<Step>): seq<byte> {
    if steps == [] then [] else WaitBytes(steps[0].delta) + CodeBytes(steps[0].codes) + Encode(steps[1..])
  }

  /** File position behind the wait of the last segno; `at` bytes of the song are already written. */
  function LoopStart(steps: seq<Step>, at: nat, start: nat): nat {
    if steps == [] then start
    else
      var here := at + |WaitBytes(steps[0].delta)|;
      LoopStart(steps[1..], here + 2 * |steps[0].codes|, if steps[0].segno then here + HEADER_SIZE else start)
  }

  // ---------------------------------------------------------------- the file

  function Little(v: nat): (r: seq<byte>)
    ensures |r| == 4
  {
    [Low(v), Low(v / 0x100), Low(v / 0x1_0000), Low(v / 0x100_0000)]
  }

  function NameField(name: seq<byte>): (r: seq<byte>)
    ensures |r| == SONGNAME_MAX_LEN
  {
    if SONGNAME_MAX_LEN <= |name| then name[..SONGNAME_MAX_LEN] else name + seq(SONGNAME_MAX_LEN - |name|, i => 0)
  }

  const SIGNATURE: seq<byte> := ['P' as byte, 'R' as byte, 'S' as byte, 0]
  const VERSION: seq<byte> := [0, 1]

  function Header(tracks: nat, name: seq<byte>, length: nat, loopStart: nat): (r: seq<byte>)
    ensures |r| == HEADER_SIZE
  {
    SIGNATURE + VERSION + [Low(tracks), 0] + Little(length) + Little(loopStart) + NameField(name)
  }

  datatype HeaderCheck = Invalid | Checked(length: nat, loopStart: nat)

  function Number(b: seq<byte>): nat
    requires |b| == 4
  {
    b[0] as int + b[1] as int * 0x100 + b[2] as int * 0x1_0000 + b[3] as int * 0x100_0000
  }

  /** `PRS.check_header`. */
  function CheckHeader(header: seq<byte>): HeaderCheck {
    if |header| < HEADER_SIZE || header[..4] != SIGNATURE then Invalid
    else Checked(Number(header[8..12]), Number(header[12..16]))
  }

  lemma {:induction false} LittleNumber(v: nat)
    requires v < 0x1_0000_0000
    ensures Number(Little(v)) == v
  {
    var a, b, c := v / 0x100, v / 0x1_0000, v / 0x100_0000;
    assert v == a * 0x100 + v % 0x100 && a == b * 0x100 + a % 0x100 && b == c * 0x100 + b % 0x100;
  }

  lemma {:induction false} HeaderReads(tracks: nat, name: seq<byte>, length: nat, loopStart: nat)
    requires length < 0x1_0000_0000 && loopStart < 0x1_0000_0000
    ensures CheckHeader(Header(tracks, name, length, loopStart)) == Checked(length, loopStart)
  {
    var h := Header(tracks, name, length, loopStart);
    assert h[..4] == SIGNATURE;
    assert h[8..12] == Little(length) && h[12..16] == Little(loopStart);
    LittleNumber(length);
    LittleNumber(loopStart);
  }

  /** The 32 bytes of a header: signature and version, the number of tracks, length and loop start with the
      least byte first, and the name, filled up with zeros. */
  lemma {:induction false} HeaderLayout(tracks: nat, name: seq<byte>, length: nat, loopStart: nat)
    requires tracks < 256 && length < 0x1_0000_0000 && loopStart < 0x1_0000_0000
    ensures var h := Header(tracks, name, length, loopStart);
            && |h| == 32 && h[..6] == [80, 82, 83, 0, 0, 1] && h[6] as int == tracks && h[7] == 0
            && h[8] as int + h[9] as int * 0x100 + h[10] as int * 0x1_0000 + h[11] as int * 0x100_0000 == length
            && h[12] as int + h[13] as int * 0x100 + h[14] as int * 0x1_0000 + h[15] as int * 0x100_0000 == loopStart
            && forall k :: 0 <= k < 16 ==> h[16 + k] == if k < |name| then name[k] else 0
  {
    hide Little;
    LittleNumber(length);
    LittleNumber(loopStart);
    var l, p := Little(length), Little(loopStart);
    assert forall k :: 0 <= k < 4 ==> Header(tracks, name, length, loopStart)[8 + k] == l[k];
    assert forall k :: 0 <= k < 4 ==> Header(tracks, name, length, loopStart)[12 + k] == p[k];
  }

  class Compiler {
    var file: seq<byte>
    var position: nat
    var length: nat

    constructor ()
      ensures file == [] && position == length == 0
    {
      file, position, length := [], 0, 0;
    }

    method Write(data: seq<byte>)
      modifies this`file, this`position
      ensures file == ByteStream.Overwrite(old(file), old(position), data) && position == old(position) + |data|
    {
      file := ByteStream.Overwrite(file, position, data);
      position := position + |data|;
    }

    /** At the end of the file, with the song so far behind the header. */
    ghost predicate Appending(head: seq<byte>, song: seq<byte>)
      reads this
    {
      |head| == HEADER_SIZE && file == head + song && position == |file| && length == |song|
    }

    method Gen2(op: int, reg: int, value: int, ghost head: seq<byte>, ghost song: seq<byte>)
      requires 0 <= op <= 0xF0 && op % 16 == 0 && Appending(head, song)
      modifies this
      ensures Appending(head, song + CodeBytes([Op2(op, reg, value)]))
    {
      var c := Op2(op, reg, value);
      Write([c.op, c.value]);
      length := length + 2;
      assert CodeBytes([c]) == [c.op, c.value];
    }

    method GenWait(delta: int, ghost head: seq<byte>, ghost song: seq<byte>)
      requires 0 < delta && Appending(head, song)
      modifies this
      ensures Appending(head, song + WaitBytes(delta))
    {
      Write([WAIT, Low(delta), Low(delta / 0x100), Low(delta / 0x1_0000)]);
      length := length + 4;
    }

    /** The commands of one event. */
    method Emit(tr: nat, e: Event, mixer: int, ghost head: seq<byte>, ghost song: seq<byte>)
      requires !Raises(e) && Appending(head, song)
      modifies this
      ensures Appending(head, song + CodeBytes(Codes(tr, e, mixer)))
    {
      match e.command {
        case Segno => assert song + CodeBytes([]) == song;
        case Legato => assert song + CodeBytes([]) == song;
        case Mute => Gen2(OP_MUTE, tr, e.arg0, head, song);
        case Play =>
          var tone := FloorDiv(CHIP_CLOCK, 32 * e.arg0);
          EmitTwo(Op2(OP_SEND_REG, tr * 2, tone % 256), tr * 2, tone % 256, tr * 2 + 1, (tone / 256) % 16, head, song);
        case Volume => Gen2(OP_SEND_REG, tr + 8, e.arg0, head, song);
        case EnvPeriod =>
          EmitTwo(Op2(OP_SEND_REG, 11, e.arg0 % 256), 11, e.arg0 % 256, 12, (e.arg0 / 256) % 256, head, song);
        case EnvShape => Gen2(OP_SEND_REG, 13, e.arg0, head, song);
        case Timbre => Gen2(OP_SET_TIMBRE, tr, e.arg0, head, song);
        case Pan => Gen2(OP_SET_PAN, tr, e.arg0, head, song);
        case Mixer => Gen2(OP_SEND_REG, 7, mixer, head, song);
        case Noise => Gen2(OP_SEND_REG, 6, e.arg0, head, song);
        case Lfo => assert false;
      }
    }

    /** Two registers, one after the other. */
    method EmitTwo(ghost first: Code, reg0: int, value0: int, reg1: int, value1: int,
                   ghost head: seq<byte>, ghost song: seq<byte>)
      requires first == Op2(OP_SEND_REG, reg0, value0) && Appending(head, song)
      modifies this
      ensures Appending(head, song + CodeBytes([first, Op2(OP_SEND_REG, reg1, value1)]))
    {
      Gen2(OP_SEND_REG, reg0, value0, head, song);
      Gen2(OP_SEND_REG, reg1, value1, head, song + CodeBytes([first]));
      ghost var second := Op2(OP_SEND_REG, reg1, value1);
      assert [first, second][1..] == [second];
      assert (song + CodeBytes([first])) + CodeBytes([second]) == song + CodeBytes([first, second]);
    }

    /** One event: its wait, then its commands; a segno in between marks where the loop starts. */
    method WriteItem(item: Item, mixer: int, start: nat, ghost head: seq<byte>, ghost song: seq<byte>)
      returns (newMixer: int, newStart: nat)
      requires !Raises(item.event) && Appending(head, song)
      modifies this
      ensures var step := StepOf(item, mixer);
              Appending(head, (song + WaitBytes(step.delta)) + CodeBytes(step.codes))
              && newStart == if step.segno then |song + WaitBytes(step.delta)| + HEADER_SIZE else start
      ensures newMixer == MixerAfter(item.track, item.event, mixer)
    {
      hide Codes, MixerAfter, WaitBytes;
      newStart := start;
      if 0 < item.delta { GenWait(item.delta, head, song); }
      NoWait(item.delta, song);
      if item.event.command == Segno { newStart := length + HEADER_SIZE; }
      newMixer := MixerAfter(item.track, item.event, mixer);
      Emit(item.track, item.event, newMixer, head, song + WaitBytes(item.delta));
    }

    lemma {:induction false} NoWait(delta: int, song: seq<byte>)
      ensures delta <= 0 ==> song + WaitBytes(delta) == song
    {
    }

    /** The song is written behind the header; false if an event raises. */
    method WriteSong(items: seq<Item>, ghost head: seq<byte>) returns (ok: bool, loopStart: nat)
      requires Appending(head, [])
      modifies this
      ensures ok <==> forall i :: 0 <= i < |items| ==> !Raises(items[i].event)
      ensures ok ==> Appending(head, Encode(Steps(items, MIXER)))
      ensures ok ==> loopStart == LoopStart(Steps(items, MIXER), 0, 0)
    {
      hide Appending, Encode, Steps, LoopStart, StepOf, MixerAfter, Raises;
      ghost var song: seq<byte> := [];
      var mixer := MIXER;
      loopStart := 0;
      assert items[0..] == items;
      for i := 0 to |items|
        invariant Appending(head, song)
        invariant forall k :: 0 <= k < i ==> !Raises(items[k].event)
        invariant Encode(Steps(items, MIXER)) == song + Encode(Steps(items[i..], mixer))
        invariant LoopStart(Steps(items, MIXER), 0, 0) == LoopStart(Steps(items[i..], mixer), |song|, loopStart)
      {
        if Raises(items[i].event) { return false, 0; }
        StepsHead(items, i, mixer, song, loopStart);
        ghost var step := StepOf(items[i], mixer);
        mixer, loopStart := WriteItem(items[i], mixer, loopStart, head, song);
        song := (song + WaitBytes(step.delta)) + CodeBytes(step.codes);
      }
      StepsEnd(items[|items|..], mixer, song, loopStart);
      ok := true;
    }

    /** Four bytes at a position, least first. */
    method WriteLittle(at: nat, v: nat)
      requires at + 4 <= |file|
      modifies this`file, this`position
      ensures file == ByteStream.Overwrite(old(file), at, Little(v))
    {
      hide ByteStream.Overwrite, Patched, Low;
      ghost var before, done := file, [];
      position := at;
      Patch(before, at, done, Low(v));
      Write([Low(v)]);
      done := done + [Low(v)];
      Patch(before, at, done, Low(v / 0x100));
      Write([Low(v / 0x100)]);
      done := done + [Low(v / 0x100)];
      Patch(before, at, done, Low(v / 0x1_0000));
      Write([Low(v / 0x1_0000)]);
      done := done + [Low(v / 0x1_0000)];
      Patch(before, at, done, Low(v / 0x100_0000));
      Write([Low(v / 0x100_0000)]);
      done := done + [Low(v / 0x100_0000)];
      assert done == Little(v);
      PatchedAll(before, at, done);
    }

    /** `save_to`. */
    method SaveTo(tracks: seq<seq<Token>>, songname: seq<byte>) returns (ok: bool)
      requires file == [] && position == length == 0
      modifies this
      ensures ok <==> 1 <= |tracks| <= MAX_TRACKS && NothingRaises(Merge(Voices(tracks), 0))
      ensures ok ==> file == Saved(tracks, songname)
    {
      hide Merge, Encode, Steps, LoopStart, Voices, Raises, ByteStream.Overwrite, Header, Little;
      Write(SIGNATURE);
      Write(VERSION);
      Write([Low(|tracks|)]);
      Write([0]);
      Write([0, 0, 0, 0]);
      Write([0, 0, 0, 0]);
      Write(NameField(songname));
      assert file == Header(|tracks|, songname, 0, 0) by { HeaderWritten(|tracks|, songname); }
      var compiled := CompileMulti(tracks);
      if compiled.Raised? { return false; }
      ghost var head := Header(|tracks|, songname, 0, 0);
      assert head + [] == head;
      var loopStart;
      ok, loopStart := WriteSong(compiled.items, head);
      if !ok { return; }
      WriteLittle(LENGTH_OFFSET, length);
      WriteLittle(LOOP_START_OFFSET, loopStart);
      HeaderPatched(|tracks|, songname, length, loopStart, Encode(Steps(compiled.items, MIXER)));
    }
  }

  predicate NothingRaises(items: seq<Item>) {
    forall i :: 0 <= i < |items| ==> !Raises(items[i].event)
  }

  /** The file of a song. */
  function Saved(tracks: seq<seq<Token>>, songname: seq<byte>): seq<byte> {
    var steps := Steps(Merge(Voices(tracks), 0), MIXER);
    Header(|tracks|, songname, |Encode(steps)|, LoopStart(steps, 0, 0)) + Encode(steps)
  }

  function Patched(before: seq<byte>, at: nat, done: seq<byte>): (r: seq<byte>)
    requires at + |done| <= |before|
    ensures |r| == |before|
  {
    before[..at] + done + before[at + |done|..]
  }

  lemma {:induction false} Patch(before: seq<byte>, at: nat, done: seq<byte>, b: byte)
    requires at + |done| < |before|
    ensures var next := done + [b];
            ByteStream.Overwrite(Patched(before, at, done), at + |done|, [b]) == Patched(before, at, next)
    ensures Patched(before, at, []) == before
  {
  }

  lemma {:induction false} PatchedAll(before: seq<byte>, at: nat, data: seq<byte>)
    requires data != [] && at + |data| <= |before|
    ensures Patched(before, at, data) == ByteStream.Overwrite(before, at, data)
  {
  }

  function Append(file: seq<byte>, data: seq<byte>): seq<byte> {
    ByteStream.Overwrite(file, |file|, data)
  }

  lemma {:induction false} HeaderWritten(tracks: nat, name: seq<byte>)
    ensures var start := Append(Append(Append(Append([], SIGNATURE), VERSION), [Low(tracks)]), [0]);
            Append(Append(Append(start, [0, 0, 0, 0]), [0, 0, 0, 0]), NameField(name)) == Header(tracks, name, 0, 0)
  {
    assert Little(0) == [0, 0, 0, 0];
    assert [Low(tracks)] + [0] == [Low(tracks), 0];
  }

  lemma {:induction false} HeaderPatched(tracks: nat, name: seq<byte>, length: nat, loopStart: nat, song: seq<byte>)
    ensures var patched := ByteStream.Overwrite(Header(tracks, name, 0, 0) + song, LENGTH_OFFSET, Little(length));
            ByteStream.Overwrite(patched, LOOP_START_OFFSET, Little(loopStart))
            == Header(tracks, name, length, loopStart) + song
  {
  }

  lemma {:induction false} StepsHead(items: seq<Item>, i: nat, mixer: int, song: seq<byte>, start: nat)
    requires i < |items|
    ensures var step, here := StepOf(items[i], mixer), song + WaitBytes(StepOf(items[i], mixer).delta);
            var rest := Steps(items[i + 1..], MixerAfter(items[i].track, items[i].event, mixer));
            && song + Encode(Steps(items[i..], mixer)) == (here + CodeBytes(step.codes)) + Encode(rest)
            && LoopStart(Steps(items[i..], mixer), |song|, start)
               == LoopStart(rest, |here + CodeBytes(step.codes)|, if step.segno then |here| + HEADER_SIZE else start)
  {
    hide MixerAfter, StepOf, WaitBytes;
    assert items[i..][1..] == items[i + 1..];
    var steps := Steps(items[i..], mixer);
    assert steps[1..] == Steps(items[i + 1..], MixerAfter(items[i].track, items[i].event, mixer));
  }

  lemma {:induction false} StepsEnd(items: seq<Item>, mixer: int, song: seq<byte>, start: nat)
    requires items == []
    ensures song + Encode(Steps(items, mixer)) == song && LoopStart(Steps(items, mixer), |song|, start) == start
  {
    assert song + [] == song;
  }
}
