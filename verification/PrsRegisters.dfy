/** What a saved song leaves in the sound chip: the player's calls are replayed into registers. */
module PrsRegisters {
  import opened Options
  import opened PowersOfTwo
  import opened MusicTrack
  import opened MusicMerge
  import opened PrsFormat
  import opened PrsPlayer
  import opened PrsRoundTrip

  /** One byte for each value of the low half of an operation. */
  type Bank = b: seq<byte> | |b| == 16 witness seq(16, i => 0)

  /** The registers of the chip, and what the driver keeps for each track. */
  datatype Chip = Chip(regs: Bank, muted: Bank, legato: Bank, pan: Bank, timbre: Bank)

  /** What a command is to the driver. */
  function Strike(chip: Chip, c: Code): Chip {
    var k := c.op as int % 16;
    match c.op as int / 16
    case 1 => chip.(muted := chip.muted[k := c.value])
    case 2 => chip.(regs := chip.regs[k := c.value])
    case 3 => chip.(legato := chip.legato[k := c.value])
    case 4 => chip.(pan := chip.pan[k := c.value])
    case 5 => chip.(timbre := chip.timbre[k := c.value])
    case _ => chip
  }

  function Replay(chip: Chip, codes: seq<Code>): Chip
    decreases |codes|
  {
    if codes == [] then chip else Replay(Strike(chip, codes[0]), codes[1..])
  }

  /** All commands of a song. */
  function Commands(steps: seq<Step>): seq<Code> {
    if steps == [] then [] else steps[0].codes + Commands(steps[1..])
  }

  lemma {:induction false} ReplayBoth(chip: Chip, a: seq<Code>, b: seq<Code>)
    ensures Replay(chip, a + b) == Replay(Replay(chip, a), b)
    decreases |a|
  {
    if a == [] {
      assert a + b == b;
    } else {
      assert (a + b)[1..] == a[1..] + b;
      ReplayBoth(Strike(chip, a[0]), a[1..], b);
    }
  }

  // ---------------------------------------------------------------- what was asked for

  /** The argument of the last such event of a track. */
  function Last(items: seq<Item>, t: nat, c: Command): Option<int> {
    if items == [] then None
    else if Last(items[1..], t, c).Some? then Last(items[1..], t, c)
    else if items[0].track == t && items[0].event.command == c then Some(items[0].event.arg0)
    else None
  }

  /** The argument of the last such event of any track. */
  function LastOfAll(items: seq<Item>, c: Command): Option<int> {
    if items == [] then None
    else if LastOfAll(items[1..], c).Some? then LastOfAll(items[1..], c)
    else if items[0].event.command == c then Some(items[0].event.arg0)
    else None
  }

  predicate Holds(now: byte, asked: Option<int>, before: byte) {
    now == if asked.Some? then Low(asked.value) else before
  }

  /** Two registers hold, low byte first, the 12 lowest bits of the clock divided by 32 periods. */
  ghost predicate HoldsTone(low: byte, high: byte, asked: Option<int>, low0: byte, high0: byte) {
    match asked
    case None => low == low0 && high == high0
    case Some(period) =>
      0 < period ==>
        var tone := low as int + 256 * high as int;
        exists q: nat :: q * (32 * period) <= 2_000_000 < (q + 1) * (32 * period) && tone == q % 4096
  }

  /** 16 bits in two registers, low byte first. */
  predicate HoldsWide(low: byte, high: byte, asked: Option<int>, low0: byte, high0: byte) {
    match asked
    case None => low == low0 && high == high0
    case Some(v) => low as int + 256 * high as int == v % 0x1_0000
  }

  /** Everything a track has of its own is what its last events asked for. */
  ghost predicate TrackShows(items: seq<Item>, t: nat, before: Chip, after: Chip)
    requires t < 3
  {
    && HoldsTone(after.regs[2 * t], after.regs[2 * t + 1], Last(items, t, Play),
                 before.regs[2 * t], before.regs[2 * t + 1])
    && Holds(after.regs[8 + t], Last(items, t, Volume), before.regs[8 + t])
    && Holds(after.muted[t], Last(items, t, Mute), before.muted[t])
    && Holds(after.timbre[t], Last(items, t, Timbre), before.timbre[t])
    && Holds(after.pan[t], Last(items, t, Pan), before.pan[t])
  }

  /** What the tracks share is what was asked for last by any of them. */
  predicate SharedShows(items: seq<Item>, before: Chip, after: Chip) {
    && Holds(after.regs[6], LastOfAll(items, Noise), before.regs[6])
    && Holds(after.regs[13], LastOfAll(items, EnvShape), before.regs[13])
    && HoldsWide(after.regs[11], after.regs[12], LastOfAll(items, EnvPeriod), before.regs[11], before.regs[12])
    && after.regs[14] == before.regs[14] && after.regs[15] == before.regs[15] && after.legato == before.legato
  }

  ghost predicate Shows(items: seq<Item>, before: Chip, after: Chip) {
    (forall t :: 0 <= t < 3 ==> TrackShows(items, t, before, after)) && SharedShows(items, before, after)
  }

  lemma {:induction false} LastHead(a: Item, rest: seq<Item>, t: nat, c: Command)
    ensures Last([a] + rest, t, c) == if Last(rest, t, c).Some? then Last(rest, t, c) else Last([a], t, c)
    ensures LastOfAll([a] + rest, c) == if LastOfAll(rest, c).Some? then LastOfAll(rest, c) else LastOfAll([a], c)
  {
    assert ([a] + rest)[1..] == rest && [a][1..] == [];
  }

  lemma {:induction false} TrackShowsBoth(a: Item, rest: seq<Item>, t: nat, x: Chip, y: Chip, z: Chip)
    requires t < 3 && TrackShows([a], t, x, y) && TrackShows(rest, t, y, z)
    ensures TrackShows([a] + rest, t, x, z)
  {
    hide Last;
    LastHead(a, rest, t, Play);
    LastHead(a, rest, t, Volume);
    LastHead(a, rest, t, Mute);
    LastHead(a, rest, t, Timbre);
    LastHead(a, rest, t, Pan);
  }

  lemma {:induction false} SharedShowsBoth(a: Item, rest: seq<Item>, x: Chip, y: Chip, z: Chip)
    requires SharedShows([a], x, y) && SharedShows(rest, y, z)
    ensures SharedShows([a] + rest, x, z)
  {
    hide LastOfAll;
    LastHead(a, rest, 0, Noise);
    LastHead(a, rest, 0, EnvShape);
    LastHead(a, rest, 0, EnvPeriod);
  }

  // ---------------------------------------------------------------- one event

  lemma {:induction false} LastOne(a: Item, t: nat, c: Command)
    ensures Last([a], t, c) == if a.track == t && a.event.command == c then Some(a.event.arg0) else None
    ensures LastOfAll([a], c) == if a.event.command == c then Some(a.event.arg0) else None
  {
    assert [a][1..] == [];
  }

  lemma {:induction false} StrikeOp(chip: Chip, op: int, reg: int, value: int)
    requires op in {OP_MUTE, OP_SEND_REG, OP_SET_PAN, OP_SET_TIMBRE} && 0 <= reg < 16
    ensures Strike(chip, Op2(op, reg, value)) ==
            if op == OP_MUTE then chip.(muted := chip.muted[reg := Low(value)])
            else if op == OP_SEND_REG then chip.(regs := chip.regs[reg := Low(value)])
            else if op == OP_SET_PAN then chip.(pan := chip.pan[reg := Low(value)])
            else chip.(timbre := chip.timbre[reg := Low(value)])
  {
    hide Low;
  }

  lemma {:induction false} ReplayOne(chip: Chip, c: Code)
    ensures Replay(chip, [c]) == Strike(chip, c) && Replay(chip, []) == chip
  {
    assert [c][1..] == [];
  }

  lemma {:induction false} ReplayTwo(chip: Chip, c: Code, d: Code)
    ensures Replay(chip, [c, d]) == Strike(Strike(chip, c), d)
  {
    hide Strike;
    assert [c, d][1..] == [d];
    ReplayOne(Strike(chip, c), d);
  }

  /** The chip after the commands of one event. */
  lemma {:induction false} EventStrikes(tr: nat, e: Event, mixer: int, x: Chip)
    requires tr < 3 && !Raises(e)
    ensures var y := Replay(x, Codes(tr, e, mixer));
            match e.command
            case Mute => y == x.(muted := x.muted[tr := Low(e.arg0)])
            case Volume => y == x.(regs := x.regs[8 + tr := Low(e.arg0)])
            case Timbre => y == x.(timbre := x.timbre[tr := Low(e.arg0)])
            case Pan => y == x.(pan := x.pan[tr := Low(e.arg0)])
            case Noise => y == x.(regs := x.regs[6 := Low(e.arg0)])
            case EnvShape => y == x.(regs := x.regs[13 := Low(e.arg0)])
            case Mixer => y == x.(regs := x.regs[7 := Low(mixer)])
            case EnvPeriod => y == x.(regs := x.regs[11 := Low(e.arg0)][12 := Low(e.arg0 / 256)])
            case Play =>
              var tone := FloorDiv(CHIP_CLOCK, 32 * e.arg0);
              y == x.(regs := x.regs[2 * tr := Low(tone)][2 * tr + 1 := Low((tone / 256) % 16)])
            case _ => y == x
  {
    hide Strike, Replay, Op2, FloorDiv;
    var codes := Codes(tr, e, mixer);
    if codes == [] {
      ReplayOne(x, Code(0, 0));
    } else if |codes| == 1 {
      ReplayOne(x, codes[0]);
    } else {
      ReplayTwo(x, codes[0], codes[1]);
    }
    match e.command
    case Mute => StrikeOp(x, OP_MUTE, tr, e.arg0);
    case Volume => StrikeOp(x, OP_SEND_REG, 8 + tr, e.arg0);
    case Timbre => StrikeOp(x, OP_SET_TIMBRE, tr, e.arg0);
    case Pan => StrikeOp(x, OP_SET_PAN, tr, e.arg0);
    case Noise => StrikeOp(x, OP_SEND_REG, 6, e.arg0);
    case EnvShape => StrikeOp(x, OP_SEND_REG, 13, e.arg0);
    case Mixer => StrikeOp(x, OP_SEND_REG, 7, mixer);
    case EnvPeriod => TwoStrikes(x, 11, e.arg0 % 256, 12, (e.arg0 / 256) % 256);
    case Play =>
      var tone := FloorDiv(CHIP_CLOCK, 32 * e.arg0);
      TwoStrikes(x, tr * 2, tone % 256, tr * 2 + 1, (tone / 256) % 16);
    case _ =>
  }

  lemma {:induction false} TwoStrikes(x: Chip, reg0: int, value0: int, reg1: int, value1: int)
    requires 0 <= reg0 < 16 && 0 <= reg1 < 16
    ensures Strike(Strike(x, Op2(OP_SEND_REG, reg0, value0)), Op2(OP_SEND_REG, reg1, value1))
            == x.(regs := x.regs[reg0 := Low(value0)][reg1 := Low(value1)])
  {
    hide Strike, Low, Op2;
    StrikeOp(x, OP_SEND_REG, reg0, value0);
    StrikeOp(Strike(x, Op2(OP_SEND_REG, reg0, value0)), OP_SEND_REG, reg1, value1);
  }

  lemma {:induction false} Below4096(c: int, r: int)
    ensures 0 <= r < 4096 ==> (4096 * c + r) % 4096 == r
  {
  }

  lemma {:induction false} Below65536(c: int, r: int)
    ensures 0 <= r < 0x1_0000 ==> (0x1_0000 * c + r) % 0x1_0000 == r
  {
  }

  lemma {:induction false} TwelveBits(v: int)
    ensures v % 256 + 256 * ((v / 256) % 16) == v % 4096
  {
    var a := v / 256;
    var c, r := a / 16, 256 * (a % 16) + v % 256;
    assert v == 4096 * c + r;
    Below4096(c, r);
  }

  lemma {:induction false} SixteenBits(v: int)
    ensures v % 256 + 256 * ((v / 256) % 256) == v % 0x1_0000
  {
    var a := v / 256;
    var c, r := a / 256, 256 * (a % 256) + v % 256;
    assert v == 0x1_0000 * c + r;
    Below65536(c, r);
  }

  lemma {:induction false} Quotient(a: nat, d: nat) returns (q: nat)
    requires 0 < d
    ensures q == a / d && q * d <= a < (q + 1) * d
  {
    q := a / d;
    assert a == q * d + a % d && (q + 1) * d == q * d + d;
  }

  /** The tone registers hold the tone of the period. */
  lemma {:induction false} ToneShows(period: int, low: byte, high: byte, low0: byte, high0: byte)
    requires 0 < period
    requires var tone := FloorDiv(CHIP_CLOCK, 32 * period); low == Low(tone) && high == Low((tone / 256) % 16)
    ensures HoldsTone(low, high, Some(period), low0, high0)
  {
    var q := Quotient(2_000_000, 32 * period);
    assert FloorDiv(CHIP_CLOCK, 32 * period) == q by { Floors(32 * period); }
    hide FloorDiv;
    TwelveBits(q);
    SmallMod(q / 256);
    assert low as int + 256 * high as int == q % 4096;
  }

  lemma {:induction false} Floors(d: int)
    requires 0 < d
    ensures FloorDiv(CHIP_CLOCK, d) == 2_000_000 / d
  {
  }

  lemma {:induction false} SmallMod(a: nat)
    ensures a % 16 % 256 == a % 16
  {
  }

  lemma {:induction false} WideShows(v: int, low0: byte, high0: byte)
    ensures HoldsWide(Low(v), Low(v / 256), Some(v), low0, high0)
  {
    SixteenBits(v);
  }

  lemma {:induction false} EventTrack(a: Item, mixer: int, t: nat, x: Chip)
    requires t < 3 && a.track < 3 && !Raises(a.event)
    ensures TrackShows([a], t, x, Replay(x, Codes(a.track, a.event, mixer)))
  {
    hide Codes, Replay, Low, FloorDiv, HoldsTone, Last;
    LastOne(a, t, Play);
    LastOne(a, t, Volume);
    LastOne(a, t, Mute);
    LastOne(a, t, Timbre);
    LastOne(a, t, Pan);
    EventStrikes(a.track, a.event, mixer, x);
    var y := Replay(x, Codes(a.track, a.event, mixer));
    if a.event.command == Play && a.track == t {
      AskedTone(a.event.arg0, y.regs[2 * t], y.regs[2 * t + 1], x.regs[2 * t], x.regs[2 * t + 1]);
    } else {
      assert y.regs[2 * t] == x.regs[2 * t] && y.regs[2 * t + 1] == x.regs[2 * t + 1];
      SameTone(x.regs[2 * t], x.regs[2 * t + 1]);
    }
  }

  lemma {:induction false} AskedTone(period: int, low: byte, high: byte, low0: byte, high0: byte)
    requires period != 0
    requires var tone := FloorDiv(CHIP_CLOCK, 32 * period); low == Low(tone) && high == Low((tone / 256) % 16)
    ensures HoldsTone(low, high, Some(period), low0, high0)
  {
    hide FloorDiv, Low;
    if 0 < period { ToneShows(period, low, high, low0, high0); }
  }

  lemma {:induction false} SameTone(low: byte, high: byte)
    ensures HoldsTone(low, high, None, low, high)
  {
  }

  lemma {:induction false} EventShared(a: Item, mixer: int, x: Chip)
    requires a.track < 3 && !Raises(a.event)
    ensures SharedShows([a], x, Replay(x, Codes(a.track, a.event, mixer)))
  {
    hide Codes, Replay, Low, FloorDiv, LastOfAll, HoldsWide;
    LastOne(a, 0, Noise);
    LastOne(a, 0, EnvShape);
    LastOne(a, 0, EnvPeriod);
    EventStrikes(a.track, a.event, mixer, x);
    WideShows(a.event.arg0, x.regs[11], x.regs[12]);
    SameWide(x.regs[11], x.regs[12]);
  }

  lemma {:induction false} SameWide(low: byte, high: byte)
    ensures HoldsWide(low, high, None, low, high)
  {
  }

  // ---------------------------------------------------------------- the mixer

  /** The last of the three settings that a track chose: tone, noise, or both. */
  function Choice(items: seq<Item>, t: nat): Option<int> {
    if items == [] then None
    else if Choice(items[1..], t).Some? then Choice(items[1..], t)
    else
      var a := items[0];
      if a.track == t && a.event.command == Mixer && 0 <= a.event.arg0 <= 2 then Some(a.event.arg0) else None
  }

  /** Bit k of a register. */
  predicate Bit(v: int, k: nat) {
    (v / Power(k)) % 2 == 1
  }

  /** A set bit switches off: the tone of track t in bit t, its noise in bit t + 3. */
  predicate MixerShows(choice: Option<int>, t: nat, before: int, after: int) {
    match choice
    case None => Bit(after, t) == Bit(before, t) && Bit(after, t + 3) == Bit(before, t + 3)
    case Some(c) => Bit(after, t) == (c == 1) && Bit(after, t + 3) == (c == 0)
  }

  /** The mixer setting after some events. */
  function MixerRun(items: seq<Item>, mixer: int): int {
    if items == [] then mixer else MixerRun(items[1..], MixerAfter(items[0].track, items[0].event, mixer))
  }

  lemma {:induction false} Powers()
    ensures Power(0) == 1 && Power(1) == 2 && Power(2) == 4 && Power(3) == 8 && Power(4) == 16 && Power(5) == 32
  {
    assert Power(1) == 2 * Power(0);
    assert Power(2) == 2 * Power(1);
    assert Power(3) == 2 * Power(2);
  }

  /** A number of six bits, lowest first. */
  function Six(b: seq<bool>): int
    requires |b| == 6
  {
    One(b[0]) + 2 * (One(b[1]) + 2 * (One(b[2]) + 2 * (One(b[3]) + 2 * (One(b[4]) + 2 * One(b[5])))))
  }

  function One(bit: bool): int {
    if bit then 1 else 0
  }

  lemma {:induction false} HalfAndBit(m: int)
    ensures m == One(m % 2 == 1) + 2 * (m / 2)
  {
  }

  lemma {:induction false} SixBits(b: seq<bool>)
    requires |b| == 6
    ensures 0 <= Six(b) < 64 && forall j :: 0 <= j < 6 ==> Bit(Six(b), j) == b[j]
  {
    Powers();
    var m := Six(b);
    assert m / 1 % 2 == (if b[0] then 1 else 0) && m / 2 % 2 == (if b[1] then 1 else 0);
    assert m / 4 % 2 == (if b[2] then 1 else 0) && m / 8 % 2 == (if b[3] then 1 else 0);
    assert m / 16 % 2 == (if b[4] then 1 else 0) && m / 32 % 2 == (if b[5] then 1 else 0);
    forall j: nat | j < 6 ensures Bit(m, j) == b[j] {
      assert j == 0 || j == 1 || j == 2 || j == 3 || j == 4 || j == 5;
    }
  }

  lemma {:induction false} IsSix(m: int) returns (b: seq<bool>)
    requires 0 <= m < 64
    ensures |b| == 6 && m == Six(b)
  {
    var m1 := m / 2;
    var m2 := m1 / 2;
    var m3 := m2 / 2;
    var m4 := m3 / 2;
    var m5 := m4 / 2;
    HalfAndBit(m);
    HalfAndBit(m1);
    HalfAndBit(m2);
    HalfAndBit(m3);
    HalfAndBit(m4);
    HalfAndBit(m5);
    assert m5 / 2 == 0;
    hide One;
    b := [m % 2 == 1, m1 % 2 == 1, m2 % 2 == 1, m3 % 2 == 1, m4 % 2 == 1, m5 % 2 == 1];
  }

  lemma {:induction false} SetBitBits(m: int, k: nat, on: bool, j: nat)
    requires 0 <= m < 64 && k < 6 && j < 6
    ensures 0 <= SetBit(m, k, on) < 64
    ensures Bit(SetBit(m, k, on), j) == if j == k then on else Bit(m, j)
  {
    var b := IsSix(m);
    SixBits(b);
    SixBits(b[k := on]);
    assert SetBit(m, k, on) == Six(b[k := on]) by { SetBitIs(b, k, on); }
  }

  lemma {:induction false} SetBitIs(b: seq<bool>, k: nat, on: bool)
    requires |b| == 6 && k < 6
    ensures SetBit(Six(b), k, on) == Six(b[k := on])
  {
    SixBits(b);
    Powers();
    assert Bit(Six(b), k) == b[k];
    assert k == 0 || k == 1 || k == 2 || k == 3 || k == 4 || k == 5;
  }

  /** One mixer event changes the bits of its own track alone. */
  lemma {:induction false} MixerEvent(a: Item, m: int, t: nat)
    requires a.track < 3 && t < 3 && 0 <= m < 64
    ensures 0 <= MixerAfter(a.track, a.event, m) < 64
    ensures MixerShows(Choice([a], t), t, m, MixerAfter(a.track, a.event, m))
  {
    hide SetBit, Bit;
    assert [a][1..] == [];
    var k := a.track;
    if a.event.command == Mixer && 0 <= a.event.arg0 <= 2 {
      BothSet(m, k + 3, true, k, false, t);
      BothSet(m, k + 3, true, k, false, t + 3);
      BothSet(m, k + 3, false, k, true, t);
      BothSet(m, k + 3, false, k, true, t + 3);
      BothSet(m, k, false, k + 3, false, t);
      BothSet(m, k, false, k + 3, false, t + 3);
    }
  }

  lemma {:induction false} BothSet(m: int, k: nat, on: bool, k': nat, on': bool, j: nat)
    requires 0 <= m < 64 && k < 6 && k' < 6 && k != k' && j < 6
    ensures var m' := SetBit(SetBit(m, k, on), k', on');
            0 <= m' < 64 && Bit(m', j) == if j == k' then on' else if j == k then on else Bit(m, j)
  {
    hide SetBit, Bit;
    SetBitBits(m, k, on, j);
    SetBitBits(SetBit(m, k, on), k', on', j);
  }

  lemma {:induction false} ChoiceHead(a: Item, rest: seq<Item>, t: nat)
    ensures Choice([a] + rest, t) == if Choice(rest, t).Some? then Choice(rest, t) else Choice([a], t)
  {
    assert ([a] + rest)[1..] == rest && [a][1..] == [];
  }

  /** The mixer setting is what each track chose last. */
  lemma {:induction false} MixerRunShows(items: seq<Item>, m: int, t: nat)
    requires t < 3 && 0 <= m < 64 && forall i :: 0 <= i < |items| ==> items[i].track < 3
    ensures 0 <= MixerRun(items, m) < 64 && MixerShows(Choice(items, t), t, m, MixerRun(items, m))
  {
    if items != [] {
      hide MixerAfter, Bit, Choice;
      var a, rest := items[0], items[1..];
      MixerEvent(a, m, t);
      MixerRunShows(rest, MixerAfter(a.track, a.event, m), t);
      ChoiceHead(a, rest, t);
      assert [a] + rest == items;
    } else {
      NoChoice(t);
    }
  }

  lemma {:induction false} NoChoice(t: nat)
    ensures Choice([], t) == None
  {
  }

  // ---------------------------------------------------------------- the song

  predicate UsesMixer(items: seq<Item>) {
    exists i :: 0 <= i < |items| && items[i].event.command == Mixer
  }

  /** The mixer register holds the setting once a track has used the mixer. */
  predicate MixerHolds(items: seq<Item>, mixer: int, before: Chip, after: Chip) {
    after.regs[7] == if UsesMixer(items) then Low(MixerRun(items, mixer)) else before.regs[7]
  }

  lemma {:induction false} EventMixer(a: Item, mixer: int, x: Chip)
    requires a.track < 3 && !Raises(a.event)
    ensures var after := MixerAfter(a.track, a.event, mixer);
            Replay(x, Codes(a.track, a.event, after)).regs[7]
            == if a.event.command == Mixer then Low(after) else x.regs[7]
  {
    hide Codes, Replay, Low, FloorDiv, MixerAfter;
    EventStrikes(a.track, a.event, MixerAfter(a.track, a.event, mixer), x);
  }

  /** Without a mixer event the setting stays. */
  lemma {:induction false} NoMixer(items: seq<Item>, mixer: int)
    requires !UsesMixer(items)
    ensures MixerRun(items, mixer) == mixer
  {
    if items != [] {
      assert items[0].event.command != Mixer;
      assert forall i :: 0 <= i < |items[1..]| ==> items[1..][i] == items[i + 1];
      NoMixer(items[1..], mixer);
    }
  }

  predicate OfThree(items: seq<Item>) {
    forall i :: 0 <= i < |items| ==> items[i].track < 3
  }

  lemma {:induction false} UsesMixerHead(items: seq<Item>)
    requires items != []
    ensures UsesMixer(items) <==> items[0].event.command == Mixer || UsesMixer(items[1..])
  {
    assert forall i :: 0 <= i < |items[1..]| ==> items[1..][i] == items[i + 1];
    if UsesMixer(items) {
      var i :| 0 <= i < |items| && items[i].event.command == Mixer;
      if 0 < i { assert items[1..][i - 1] == items[i]; }
    }
  }

  /** However the events of the tracks interleave, the chip shows at the end what each track asked for
      last: no event of one track changes the tone, volume, muting, timbre or pan of another. */
  lemma {:induction false} RegistersShow(items: seq<Item>, mixer: int, x: Chip)
    requires OfThree(items) && NothingRaises(items)
    ensures var y := Replay(x, Commands(Steps(items, mixer)));
            Shows(items, x, y) && MixerHolds(items, mixer, x, y)
    decreases |items|
  {
    hide *;
    if items == [] {
      NothingShows(mixer, x);
    } else {
      var a, rest := items[0], items[1..];
      var after := MixerAfter(a.track, a.event, mixer);
      var codes, y := Codes(a.track, a.event, after), Replay(x, Codes(a.track, a.event, after));
      var z := Replay(y, Commands(Steps(rest, after)));
      FirstAndRest(items, mixer);
      ReplayBoth(x, codes, Commands(Steps(rest, after)));
      RegistersShow(rest, after, y);
      ShowsBoth(a, rest, mixer, x, y, z);
    }
  }

  lemma {:induction false} NothingShows(mixer: int, x: Chip)
    ensures var y := Replay(x, Commands(Steps([], mixer)));
            Shows([], x, y) && MixerHolds([], mixer, x, y)
  {
  }

  lemma {:induction false} FirstAndRest(items: seq<Item>, mixer: int)
    requires items != [] && OfThree(items) && NothingRaises(items)
    ensures var a, rest := items[0], items[1..];
            var after := MixerAfter(a.track, a.event, mixer);
            && Commands(Steps(items, mixer)) == Codes(a.track, a.event, after) + Commands(Steps(rest, after))
            && OfThree(rest) && NothingRaises(rest) && a.track < 3 && !Raises(a.event) && [a] + rest == items
  {
    hide Codes, MixerAfter, Raises;
    var steps := Steps(items, mixer);
    assert steps[1..] == Steps(items[1..], MixerAfter(items[0].track, items[0].event, mixer));
  }

  lemma {:induction false} ShowsBoth(a: Item, rest: seq<Item>, mixer: int, x: Chip, y: Chip, z: Chip)
    requires a.track < 3 && !Raises(a.event)
    requires var after := MixerAfter(a.track, a.event, mixer);
             y == Replay(x, Codes(a.track, a.event, after)) && Shows(rest, y, z) && MixerHolds(rest, after, y, z)
    ensures Shows([a] + rest, x, z) && MixerHolds([a] + rest, mixer, x, z)
  {
    hide Codes, Replay, Low, MixerAfter, TrackShows, SharedShows, UsesMixer, Raises;
    var after, items := MixerAfter(a.track, a.event, mixer), [a] + rest;
    EventShared(a, after, x);
    SharedShowsBoth(a, rest, x, y, z);
    forall t: int | 0 <= t < 3 ensures TrackShows(items, t, x, z) {
      EventTrack(a, after, t, x);
      TrackShowsBoth(a, rest, t, x, y, z);
    }
    EventMixer(a, mixer, x);
    UsesMixerHead(items);
    assert items[1..] == rest;
    if !UsesMixer(rest) { NoMixer(rest, after); }
  }

  function CodesOf(calls: seq<Call>): seq<Code> {
    if calls == [] then [] else (if calls[0].Call? then [calls[0].code] else []) + CodesOf(calls[1..])
  }

  lemma {:induction false} CodesOfCalls(codes: seq<Code>, delta: int, rest: seq<Call>)
    ensures CodesOf(CallsOf(codes, delta) + rest) == codes + CodesOf(rest)
    decreases |codes|
  {
    var calls := CallsOf(codes, delta) + rest;
    if codes == [] {
      assert calls == rest;
    } else {
      assert calls[1..] == CallsOf(codes[1..], 0) + rest;
      CodesOfCalls(codes[1..], 0, rest);
      assert codes == [codes[0]] + codes[1..];
    }
  }

  lemma {:induction false} CodesOfSong(steps: seq<Step>, pending: int)
    ensures CodesOf(Direct(steps, pending).calls) == Commands(steps)
    decreases |steps|
  {
    if steps != [] {
      hide CodesOf, CallsOf, WaitRead;
      var wait := WaitRead(steps[0].delta, pending);
      var pending' := if steps[0].codes == [] then wait else 0;
      CodesOfSong(steps[1..], pending');
      CodesOfCalls(steps[0].codes, wait, Direct(steps[1..], pending').calls);
    }
  }

  /** The commands of the first events come first. */
  lemma {:induction false} CommandsBegin(items: seq<Item>, mixer: int, n: nat)
    requires n <= |items|
    ensures Commands(Steps(items[..n], mixer)) <= Commands(Steps(items, mixer))
    decreases n
  {
    if n > 0 {
      hide StepOf, MixerAfter;
      var after := MixerAfter(items[0].track, items[0].event, mixer);
      CommandsBegin(items[1..], after, n - 1);
      assert items[..n][1..] == items[1..][..n - 1];
      assert Steps(items, mixer)[1..] == Steps(items[1..], after);
      assert Steps(items[..n], mixer)[1..] == Steps(items[1..][..n - 1], after);
    }
  }

  /** Tone and noise of a track: both as it chose, tone alone before. */
  predicate MixerIs(choice: Option<int>, t: nat, v: int) {
    Bit(v, t) == (choice == Some(1)) && Bit(v, t + 3) == (choice == None || choice == Some(0))
  }

  lemma {:induction false} MixerStarts(choice: Option<int>, t: nat, v: int)
    requires t < 3 && MixerShows(choice, t, MIXER, v)
    ensures MixerIs(choice, t, v)
  {
    SixBits([false, false, false, true, true, true]);
    assert Six([false, false, false, true, true, true]) == MIXER;
  }

  /** The chip shows what some events asked for, whatever it showed before. */
  ghost predicate Plays(items: seq<Item>, before: Chip, after: Chip) {
    && Shows(items, before, after)
    && if UsesMixer(items) then forall t :: 0 <= t < 3 ==> MixerIs(Choice(items, t), t, after.regs[7] as int)
       else after.regs[7] == before.regs[7]
  }

  lemma {:induction false} SmallByte(v: int)
    ensures 0 <= v < 64 ==> Low(v) as int == v
  {
  }

  lemma {:induction false} EventsPlay(items: seq<Item>, x: Chip)
    requires OfThree(items) && NothingRaises(items)
    ensures Plays(items, x, Replay(x, Commands(Steps(items, MIXER))))
  {
    hide Shows, Replay, Commands, Steps, Low, UsesMixer, MixerIs, NothingRaises, MixerRun, Choice;
    RegistersShow(items, MIXER, x);
    forall t: int | 0 <= t < 3 && UsesMixer(items)
      ensures MixerIs(Choice(items, t), t, Low(MixerRun(items, MIXER)) as int)
    {
      MixerRunShows(items, MIXER, t);
      MixerStarts(Choice(items, t), t, MixerRun(items, MIXER));
      SmallByte(MixerRun(items, MIXER));
    }
  }

  /** A saved song, played up to any of its events, has the chip show what its tracks have asked for by
      then, and nothing else. */
  lemma {:induction false} SavedSongPlays(tracks: seq<seq<Token>>, songname: seq<byte>, n: nat, x: Chip)
      returns (k: nat)
    requires 1 <= |tracks| <= MAX_TRACKS && NotesWithin(tracks, WAIT_MAX)
    requires NothingRaises(Merge(Voices(tracks), 0)) && |Saved(tracks, songname)| < 0x1_0000_0000
    requires n <= |Merge(Voices(tracks), 0)|
    ensures var items, file := Merge(Voices(tracks), 0), Saved(tracks, songname);
            && HEADER_SIZE <= |file|
            && var codes := CodesOf(Decode(file[HEADER_SIZE..], 0).calls);
            && k <= |codes| && (n == |items| ==> k == |codes|)
            && Plays(items[..n], x, Replay(x, codes[..k]))
  {
    hide *;
    var items := Merge(Voices(tracks), 0);
    var steps := Steps(items, MIXER);
    SavedSongIsHeard(tracks, songname);
    SavedIsLong(tracks, songname);
    CodesOfSong(steps, 0);
    CommandsBegin(items, MIXER, n);
    CompiledTracks(tracks, WAIT_MAX);
    Begins(items, n);
    EventsPlay(items[..n], x);
    var part := Commands(Steps(items[..n], MIXER));
    k := |part|;
    assert Commands(steps)[..k] == part;
    assert n == |items| ==> items[..n] == items;
  }

  lemma {:induction false} SavedIsLong(tracks: seq<seq<Token>>, songname: seq<byte>)
    ensures HEADER_SIZE == 32 <= |Saved(tracks, songname)| && MAX_TRACKS == 3
  {
    hide Encode, Steps, Merge, Voices, LoopStart;
  }

  lemma {:induction false} Begins(items: seq<Item>, n: nat)
    requires n <= |items| && NothingRaises(items) && forall i :: 0 <= i < |items| ==> items[i].track < 3
    ensures OfThree(items[..n]) && NothingRaises(items[..n])
  {
    hide Raises;
  }

  /** A file that is no song mutes the three tracks; going back to the loop start unmutes them. */
  lemma {:induction false} MutesAll(x: Chip)
    ensures var y := Replay(x, CodesOf([MuteNow(0, 1), MuteNow(1, 1), MuteNow(2, 1)]));
            y.muted[..3] == [1, 1, 1] && y == x.(muted := [1, 1, 1] + x.muted[3..])
    ensures var y := Replay(x, CodesOf([Unmute(0), Unmute(1), Unmute(2)]));
            y.muted[..3] == [0, 0, 0] && y == x.(muted := [0, 0, 0] + x.muted[3..])
  {
    MutesThree(x, 1);
    MutesThree(x, 0);
  }

  lemma {:induction false} MutesThree(x: Chip, flag: byte)
    ensures var y := Replay(x, CodesOf([MuteNow(0, flag), MuteNow(1, flag), MuteNow(2, flag)]));
            y == x.(muted := [flag, flag, flag] + x.muted[3..])
  {
    hide Strike;
    var a, b, c := MuteNow(0, flag), MuteNow(1, flag), MuteNow(2, flag);
    assert [a, b, c][1..] == [b, c] && [b, c][1..] == [c] && [c][1..] == [];
    assert CodesOf([c]) == [c.code] && CodesOf([b, c]) == [b.code, c.code];
    assert CodesOf([a, b, c]) == [a.code, b.code, c.code];
    var x1 := Strike(x, a.code);
    assert [a.code, b.code, c.code][1..] == [b.code, c.code];
    ReplayTwo(x1, b.code, c.code);
    MuteStrikes(x, 0, flag);
    MuteStrikes(x1, 1, flag);
    MuteStrikes(Strike(x1, b.code), 2, flag);
    assert x.muted[0 := flag][1 := flag][2 := flag] == [flag, flag, flag] + x.muted[3..];
  }

  lemma {:induction false} MuteStrikes(x: Chip, t: nat, flag: byte)
    requires t < 3
    ensures Strike(x, MuteNow(t, flag).code) == x.(muted := x.muted[t := flag])
  {
  }

  // ---------------------------------------------------------------- what cannot be saved

  /** Events the compiler stops at: a note without a period, and modulation. */
  predicate Stops(e: Event) {
    (e.command == Play && e.arg0 == 0) || e.command == Lfo
  }

  predicate NoneStops(voices: seq<Voice>) {
    forall t, k :: 0 <= t < |voices| && 0 <= k < |voices[t].events| ==> !Stops(voices[t].events[k])
  }

  lemma {:induction false} MergeStops(voices: seq<Voice>, prev: int)
    ensures NothingRaises(Merge(voices, prev)) <==> NoneStops(voices)
    decreases Pending(voices)
  {
    hide Merge, Earliest, Pending, Stops, Raises;
    if Earliest(voices) == |voices| {
      MergeNone(voices, prev);
      NoEvents(voices);
    } else {
      var m, tick := Earliest(voices), voices[Earliest(voices)].tick;
      MergeHead(voices, prev);
      MergeStops(Next(voices), tick);
      HeadStops(voices, m);
      var item, tail := Item(tick - prev, m, voices[m].events[0]), Merge(Next(voices), tick);
      assert Merge(voices, prev) == [item] + tail;
      HeadRaises(item, tail);
      assert Raises(item.event) <==> Stops(item.event) by { RaisesIs(item.event); }
    }
  }

  lemma {:induction false} RaisesIs(e: Event)
    ensures Raises(e) <==> Stops(e)
  {
  }

  lemma {:induction false} NoEvents(voices: seq<Voice>)
    requires Earliest(voices) == |voices|
    ensures NoneStops(voices)
  {
    hide Stops;
  }

  lemma {:induction false} HeadRaises(item: Item, tail: seq<Item>)
    ensures NothingRaises([item] + tail) <==> !Raises(item.event) && NothingRaises(tail)
  {
    hide Raises;
    var items := [item] + tail;
    assert items[0] == item && forall i :: 0 <= i < |tail| ==> items[i + 1] == tail[i];
  }

  lemma {:induction false} HeadStops(voices: seq<Voice>, m: nat)
    requires m < |voices| && voices[m].events != []
    ensures NoneStops(voices) <==>
            !Stops(voices[m].events[0]) && NoneStops(voices[m := After(voices[m])])
  {
    hide Stops;
    var next := voices[m := After(voices[m])];
    assert next[m].events == voices[m].events[1..];
    assert forall k :: 0 <= k < |next[m].events| ==> next[m].events[k] == voices[m].events[k + 1];
    if NoneStops(next) && !Stops(voices[m].events[0]) {
      forall t, k | 0 <= t < |voices| && 0 <= k < |voices[t].events| ensures !Stops(voices[t].events[k]) {
        if t == m {
          if 0 < k { assert !Stops(next[m].events[k - 1]); }
        } else {
          assert !Stops(next[t].events[k]);
        }
      }
    }
    if NoneStops(voices) {
      forall t, k | 0 <= t < |next| && 0 <= k < |next[t].events| ensures !Stops(next[t].events[k]) {
        if t == m { assert !Stops(voices[m].events[k + 1]); } else { assert !Stops(voices[t].events[k]); }
      }
    }
  }

  /** Any one to three tracks are saved, unless one of them has a note without a period or modulation. */
  method SavesUnlessStopped(tracks: seq<seq<Token>>, songname: seq<byte>) returns (ok: bool)
    ensures ok <==>
            1 <= |tracks| <= 3
            && forall t, k :: 0 <= t < |tracks| && 0 <= k < |TrackEvents(tracks[t])| ==>
                 !Stops(TrackEvents(tracks[t])[k])
  {
    hide TrackEvents, Stops, Saved, Merge;
    var compiler := new Compiler();
    ok := compiler.SaveTo(tracks, songname);
    MergeStops(Voices(tracks), 0);
  }

  // ---------------------------------------------------------------- the tracks

  /** The argument of a track's last such event. */
  function LastEvent(events: seq<Event>, c: Command): Option<int> {
    if events == [] then None
    else if LastEvent(events[1..], c).Some? then LastEvent(events[1..], c)
    else if events[0].command == c then Some(events[0].arg0)
    else None
  }

  function LastMoment(moments: seq<Moment>, c: Command): Option<int> {
    if moments == [] then None
    else if LastMoment(moments[1..], c).Some? then LastMoment(moments[1..], c)
    else if moments[0].event.command == c then Some(moments[0].event.arg0)
    else None
  }

  lemma {:induction false} LastOfScore(v: Voice, t: nat, c: Command)
    ensures LastMoment(ScoreOf(v, t), c) == LastEvent(v.events, c)
    decreases |v.events|
  {
    if v.events != [] {
      LastOfScore(After(v), t, c);
      assert After(v).events == v.events[1..];
      assert ScoreOf(v, t)[1..] == ScoreOf(After(v), t);
    }
  }

  lemma {:induction false} LastOfTimeline(items: seq<Item>, start: int, t: nat, c: Command)
    ensures Last(items, t, c) == LastMoment(Of(Timeline(items, start), t), c)
    decreases |items|
  {
    if items != [] {
      var moments, time := Timeline(items, start), start + items[0].delta;
      LastOfTimeline(items[1..], time, t, c);
      assert moments[1..] == Timeline(items[1..], time);
      var rest := Of(moments[1..], t);
      if items[0].track == t {
        assert ([moments[0]] + rest)[0] == moments[0] && ([moments[0]] + rest)[1..] == rest;
      } else {
        assert [] + rest == rest;
      }
    }
  }

  /** At the end of a saved song the volume register of every track holds its last volume, and its tone
      registers its last tone, as the track's own events have them. */
  lemma {:induction false} SongEndsWith(tracks: seq<seq<Token>>, songname: seq<byte>, t: nat, x: Chip)
    requires 1 <= |tracks| <= MAX_TRACKS && NotesWithin(tracks, WAIT_MAX) && t < |tracks|
    requires NothingRaises(Merge(Voices(tracks), 0)) && |Saved(tracks, songname)| < 0x1_0000_0000
    ensures var file, events := Saved(tracks, songname), TrackEvents(tracks[t]);
            && HEADER_SIZE <= |file|
            && var y := Replay(x, CodesOf(Decode(file[HEADER_SIZE..], 0).calls));
            && Holds(y.regs[8 + t], LastEvent(events, Volume), x.regs[8 + t])
            && HoldsTone(y.regs[2 * t], y.regs[2 * t + 1], LastEvent(events, Play), x.regs[2 * t], x.regs[2 * t + 1])
            && Holds(y.muted[t], LastEvent(events, Mute), x.muted[t])
  {
    hide *;
    var items, n := Merge(Voices(tracks), 0), |Merge(Voices(tracks), 0)|;
    var k := SavedSongPlays(tracks, songname, n, x);
    SavedIsLong(tracks, songname);
    CompiledTracks(tracks, WAIT_MAX);
    LastOfTimeline(items, 0, t, Volume);
    LastOfTimeline(items, 0, t, Play);
    LastOfTimeline(items, 0, t, Mute);
    var v := Voice(0, TrackEvents(tracks[t]));
    LastOfScore(v, t, Volume);
    LastOfScore(v, t, Play);
    LastOfScore(v, t, Mute);
    assert items[..n] == items;
    var codes := CodesOf(Decode(Saved(tracks, songname)[HEADER_SIZE..], 0).calls);
    assert codes[..k] == codes;
    PlaysTrack(items, t, x, Replay(x, codes));
  }

  lemma {:induction false} PlaysTrack(items: seq<Item>, t: nat, x: Chip, y: Chip)
    requires t < 3 && Plays(items, x, y)
    ensures Holds(y.regs[8 + t], Last(items, t, Volume), x.regs[8 + t])
    ensures HoldsTone(y.regs[2 * t], y.regs[2 * t + 1], Last(items, t, Play), x.regs[2 * t], x.regs[2 * t + 1])
    ensures Holds(y.muted[t], Last(items, t, Mute), x.muted[t])
  {
    hide Holds, HoldsTone, Last, SharedShows, MixerIs, UsesMixer;
    assert TrackShows(items, t, x, y);
  }
}
