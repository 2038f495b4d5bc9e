/** Rotary encoders read by interrupts: two pins per encoder change in Gray code as the shaft turns. */
module RotaryEncoder {

  const MAX_ENCODER_COUNT := 5

  /** Bits 0-1 of the status are the pins now, 2-3 the pins before, 4-5 the possible direction. */
  datatype Encoder = Encoder(status: int, count: int)

  /** A value of type int8_t. */
  function Int8(v: int): int {
    (v + 128) % 256 - 128
  }

  function Direction(status: int): int {
    status / 16 % 4
  }

  function Status(direction: int, before: int, now: int): int {
    direction * 16 + before * 4 + now
  }

  /** The pins changed to `current`. */
  function Changed(e: Encoder, current: int): Encoder {
    var before, direction := e.status % 4, Direction(e.status);
    if direction == 0 then
      Encoder(Status(if current == 1 || current == 2 then current else 0, before, current), e.count)
    else if current == 0 then
      Encoder(Status(0, before, 0),
              if direction == 2 && before == 1 then Int8(e.count + 1)
              else if direction == 1 && before == 2 then Int8(e.count - 1)
              else e.count)
    else Encoder(Status(direction, before, current), e.count)
  }

  /** What the interrupt does: nothing unless the pins changed. */
  function Interrupted(e: Encoder, current: int): Encoder {
    if current == e.status % 4 then e else Changed(e, current)
  }

  function Consumed(e: Encoder): (Encoder, int) {
    if e.count > 0 then (e.(count := Int8(e.count - 1)), 1)
    else if e.count < 0 then (e.(count := Int8(e.count + 1)), -1)
    else (e, 0)
  }

  function Pins(aHigh: bool, bHigh: bool): int {
    (if aHigh then 0 else 2) + (if bHigh then 0 else 1)
  }

  /** Is there an encoder in each place up to i, and does place i watch this pin? */
  predicate Watches(pinsA: seq<int>, pinsB: seq<int>, i: nat, gpio: nat)
    requires i < |pinsA| == |pinsB|
  {
    (forall k :: 0 <= k <= i ==> 0 <= pinsA[k]) && (gpio == pinsA[i] || gpio == pinsB[i])
  }

  class Encoders {
    const pinsA: array<int>
    const pinsB: array<int>
    const status: array<int>
    const rotationCount: array<int>

    ghost predicate Valid()
      reads this
    {
      && pinsA.Length == pinsB.Length == status.Length == rotationCount.Length == MAX_ENCODER_COUNT
      && pinsA != status && pinsA != rotationCount
      && pinsB != status && pinsB != rotationCount && status != rotationCount
    }

    constructor ()
      ensures Valid() && fresh(pinsA) && fresh(pinsB) && fresh(status) && fresh(rotationCount)
      ensures forall i :: 0 <= i < MAX_ENCODER_COUNT ==>
                pinsA[i] == pinsB[i] == -1 && status[i] == rotationCount[i] == 0
    {
      pinsA := new int[MAX_ENCODER_COUNT](_ => -1);
      pinsB := new int[MAX_ENCODER_COUNT](_ => -1);
      status := new int[MAX_ENCODER_COUNT](_ => 0);
      rotationCount := new int[MAX_ENCODER_COUNT](_ => 0);
    }

    ghost function At(i: nat): Encoder
      requires Valid() && i < MAX_ENCODER_COUNT
      reads this, status, rotationCount
    {
      Encoder(status[i], rotationCount[i])
    }

    /** The pins of one encoder are `current`. */
    method Update(i: nat, current: int)
      requires Valid() && i < MAX_ENCODER_COUNT && 0 <= current < 4
      modifies status, rotationCount
      ensures At(i) == Interrupted(old(At(i)), current)
      ensures forall k :: 0 <= k < MAX_ENCODER_COUNT && k != i ==> At(k) == old(At(k))
    {
      hide Int8;
      var prev := status[i] % 4;
      var rotation := status[i] / 16 % 4;
      if current != prev {
        if rotation == 0 {
          if current == 1 || current == 2 { rotation := current; }
        } else if current == 0 {
          if rotation == 2 && prev == 1 {
            rotationCount[i] := Int8(rotationCount[i] + 1);
          } else if rotation == 1 && prev == 2 {
            rotationCount[i] := Int8(rotationCount[i] - 1);
          }
          rotation := 0;
        }
        status[i] := rotation * 16 + prev * 4 + current;
      }
    }

    /** `encoder_callback`; `high` gives the levels of the pins. */
    method Callback(gpio: nat, high: int -> bool)
      requires Valid()
      modifies status, rotationCount
      ensures forall i :: 0 <= i < MAX_ENCODER_COUNT ==> At(i) == AfterCallback(i, gpio, high, old(At(i)))
    {
      hide Interrupted;
      for i := 0 to MAX_ENCODER_COUNT
        invariant forall k :: 0 <= k < i ==> 0 <= pinsA[k]
        invariant forall k :: 0 <= k < i ==> At(k) == AfterCallback(k, gpio, high, old(At(k)))
        invariant forall k :: i <= k < MAX_ENCODER_COUNT ==> At(k) == old(At(k))
      {
        if pinsA[i] < 0 { return; }
        if gpio == pinsA[i] || gpio == pinsB[i] {
          Update(i, (if high(pinsA[i]) then 0 else 2) + (if high(pinsB[i]) then 0 else 1));
        }
      }
    }

    /** Encoder i is updated from the levels of its pins if it watches the pin. */
    ghost function AfterCallback(i: nat, gpio: nat, high: int -> bool, before: Encoder): Encoder
      requires Valid() && i < MAX_ENCODER_COUNT
      reads this, pinsA, pinsB
    {
      if Watches(pinsA[..], pinsB[..], i, gpio) then Interrupted(before, Pins(high(pinsA[i]), high(pinsB[i])))
      else before
    }

    /** `c_consume_encoder`. */
    method Consume(number: nat) returns (r: int)
      requires Valid() && number < MAX_ENCODER_COUNT
      modifies rotationCount
      ensures (At(number), r) == Consumed(old(At(number)))
      ensures forall i :: 0 <= i < MAX_ENCODER_COUNT && i != number ==> At(i) == old(At(i))
    {
      if rotationCount[number] > 0 {
        rotationCount[number] := Int8(rotationCount[number] - 1);
        return 1;
      } else if rotationCount[number] < 0 {
        rotationCount[number] := Int8(rotationCount[number] + 1);
        return -1;
      } else {
        return 0;
      }
    }
  }

  // ---------------------------------------------------------------- the shaft

  /** The pins at a shaft position in quarter turns of the code; clockwise is upwards. */
  function PinsAt(position: int): int {
    match position % 4
    case 0 => 0
    case 1 => 2
    case 2 => 3
    case _ => 1
  }

  /** The two contacts of a shaft: each is closed, and its pin low, for half of the code; turning clockwise
      contact A closes and opens first. */
  predicate Open(contactB: bool, position: int) {
    if contactB then position % 4 == 0 || position % 4 == 1 else position % 4 == 3 || position % 4 == 0
  }

  /** The interrupt handler takes the levels of the contacts for the pins at the shaft position. */
  lemma {:induction false} ContactsArePins(position: int)
    ensures Pins(Open(false, position), Open(true, position)) == PinsAt(position)
  {
  }

  /** An interrupt on either pin of an encoder that is wired to the contacts of a shaft, behind no empty
      place. Encoders on other pins stay as they are. */
  method TurnShaft(encoders: Encoders, i: nat, gpio: nat, position: int, high: int -> bool)
    requires encoders.Valid() && i < MAX_ENCODER_COUNT
    requires forall k :: 0 <= k <= i ==> 0 <= encoders.pinsA[k]
    requires gpio == encoders.pinsA[i] || gpio == encoders.pinsB[i]
    requires high(encoders.pinsA[i]) == Open(false, position) && high(encoders.pinsB[i]) == Open(true, position)
    modifies encoders.status, encoders.rotationCount
    ensures encoders.At(i) == Interrupted(old(encoders.At(i)), PinsAt(position))
    ensures forall k :: 0 <= k < MAX_ENCODER_COUNT && gpio != encoders.pinsA[k] && gpio != encoders.pinsB[k] ==>
              encoders.At(k) == old(encoders.At(k))
  {
    hide Interrupted, Pins, PinsAt, Open;
    encoders.Callback(gpio, high);
    ContactsArePins(position);
  }

  /** A quarter turn either way, an interrupt without a change, or a reading of the count. */
  datatype Happening = Clockwise | Counterclockwise | Spurious | Reading

  /** The encoder, the shaft position, and the turns handed out so far. */
  datatype Shaft = Shaft(e: Encoder, position: int, consumed: int)

  function Happen(s: Shaft, h: Happening): Shaft {
    match h
    case Clockwise => s.(e := Interrupted(s.e, PinsAt(s.position + 1)), position := s.position + 1)
    case Counterclockwise => s.(e := Interrupted(s.e, PinsAt(s.position - 1)), position := s.position - 1)
    case Spurious => s.(e := Interrupted(s.e, PinsAt(s.position)))
    case Reading => var (e, r) := Consumed(s.e); s.(e := e, consumed := s.consumed + r)
  }

  function HappenAll(s: Shaft, hs: seq<Happening>): Shaft
    decreases |hs|
  {
    if hs == [] then s else HappenAll(Happen(s, hs[0]), hs[1..])
  }

  /** The code was last at its start position after `turns` full turns, and the shaft is less than a turn
      away from there in the direction noted. */
  predicate Follows(s: Shaft, turns: int) {
    && s.e.status % 4 == PinsAt(s.position)
    && -4 < s.position - 4 * turns < 4
    && Direction(s.e.status) == (if s.position > 4 * turns then 2 else if s.position < 4 * turns then 1 else 0)
    && s.e.count == Int8(turns - s.consumed)
  }

  function TurnsAfter(s: Shaft, turns: int): int {
    if s.position == 4 * turns + 4 then turns + 1 else if s.position == 4 * turns - 4 then turns - 1 else turns
  }

  lemma {:induction false} StatusParts(direction: int, before: int, now: int)
    requires 0 <= direction < 4 && 0 <= before < 4 && 0 <= now < 4
    ensures Status(direction, before, now) % 4 == now && Direction(Status(direction, before, now)) == direction
  {
    LastDigits(4 * direction + before, now);
    LastDigits(direction, 4 * before + now);
    assert Status(direction, before, now) == 4 * (4 * direction + before) + now == 16 * direction + (4 * before + now);
  }

  /** Division by the bases of the status and of an int8_t. */
  lemma {:induction false} LastDigits(k: int, r: int)
    ensures 0 <= r < 4 ==> (4 * k + r) % 4 == r
    ensures 0 <= r < 16 ==> (16 * k + r) / 16 == k
    ensures 0 <= r < 256 ==> (256 * k + r) % 256 == r
  {
  }

  lemma {:induction false} Int8Moves(v: int)
    ensures Int8(Int8(v) + 1) == Int8(v + 1) && Int8(Int8(v) - 1) == Int8(v - 1)
  {
    var q, u := (v + 128) / 256, (v + 128) % 256;
    assert v + 128 == 256 * q + u;
    var up, down := (u + 1) % 256, (u - 1) % 256;
    LastDigits(q + (u + 1) / 256, up);
    LastDigits(q + (u - 1) / 256, down);
    assert v + 1 + 128 == 256 * (q + (u + 1) / 256) + up;
    assert v - 1 + 128 == 256 * (q + (u - 1) / 256) + down;
  }

  lemma {:induction false} ChangedParts(e: Encoder, current: int)
    requires 0 <= current < 4
    ensures var c, direction := Changed(e, current), Direction(e.status);
            && c.status % 4 == current
            && (direction == 0 ==>
                  c.count == e.count && Direction(c.status) == if current == 1 || current == 2 then current else 0)
            && (direction != 0 && current != 0 ==> c.count == e.count && Direction(c.status) == direction)
            && (direction != 0 && current == 0 ==>
                  Direction(c.status) == 0
                  && c.count == if direction == 2 && e.status % 4 == 1 then Int8(e.count + 1)
                                else if direction == 1 && e.status % 4 == 2 then Int8(e.count - 1)
                                else e.count)
  {
    hide Int8, Direction;
    assert 0 <= Direction(e.status) < 4 by { DirectionRange(e.status); }
    StatusParts(if current == 1 || current == 2 then current else 0, e.status % 4, current);
    StatusParts(Direction(e.status), e.status % 4, current);
    StatusParts(0, e.status % 4, current);
  }

  lemma {:induction false} DirectionRange(status: int)
    ensures 0 <= Direction(status) < 4
  {
  }

  lemma {:induction false} PinsNear(turns: int, p: int)
    requires -4 <= p <= 4
    ensures PinsAt(4 * turns + p) ==
            if p == 1 || p == -3 then 2 else if p == 2 || p == -2 then 3 else if p == 3 || p == -1 then 1 else 0
  {
    assert (4 * turns + p) % 4 == p % 4;
  }

  lemma {:induction false} TurnFollows(s: Shaft, turns: int, step: int)
    requires Follows(s, turns) && (step == 1 || step == -1)
    ensures var t := s.(e := Interrupted(s.e, PinsAt(s.position + step)), position := s.position + step);
            Follows(t, TurnsAfter(t, turns))
  {
    hide Int8, Direction, Changed, PinsAt;
    var p := s.position - 4 * turns;
    PinsNear(turns, p);
    PinsNear(turns, p + step);
    assert 4 * turns + p == s.position && 4 * turns + (p + step) == s.position + step;
    ChangedParts(s.e, PinsAt(s.position + step));
    Int8Moves(turns - s.consumed);
  }

  lemma {:induction false} ReadingFollows(s: Shaft, turns: int)
    requires Follows(s, turns)
    ensures Follows(Happen(s, Reading), turns)
  {
    hide Int8, Direction, PinsAt;
    Int8Moves(turns - s.consumed);
  }

  lemma {:induction false} HappeningsFollow(s: Shaft, turns: int, hs: seq<Happening>) returns (after: int)
    requires Follows(s, turns)
    ensures Follows(HappenAll(s, hs), after)
    decreases |hs|
  {
    hide Follows, Happen;
    if hs == [] {
      after := turns;
    } else {
      var next := OneFollows(s, turns, hs[0]);
      after := HappeningsFollow(Happen(s, hs[0]), next, hs[1..]);
    }
  }

  lemma {:induction false} OneFollows(s: Shaft, turns: int, h: Happening) returns (after: int)
    requires Follows(s, turns)
    ensures Follows(Happen(s, h), after)
  {
    hide Follows, Changed;
    after := turns;
    match h
    case Clockwise =>
      TurnFollows(s, turns, 1);
      after := TurnsAfter(Happen(s, h), turns);
    case Counterclockwise =>
      TurnFollows(s, turns, -1);
      after := TurnsAfter(Happen(s, h), turns);
    case Spurious => SpuriousFollows(s, turns);
    case Reading => ReadingFollows(s, turns);
  }

  lemma {:induction false} SpuriousFollows(s: Shaft, turns: int)
    requires Follows(s, turns)
    ensures Happen(s, Spurious) == s
  {
  }

  lemma {:induction false} RestFollows()
    ensures Follows(AT_REST, 0)
  {
  }

  lemma {:induction false} Int8Small(v: int)
    ensures -128 <= v < 128 ==> Int8(v) == v
  {
  }

  const AT_REST := Shaft(Encoder(0, 0), 0, 0)

  /** However the shaft moves, back and forth, with contacts bouncing and counts being read in between:
      whenever the pins are at their start position, the count is the net number of full turns not yet
      handed out, in 8 bits; and in between it is less than one turn off. */
  lemma {:induction false} CountIsWindingNumber(hs: seq<Happening>) returns (turns: int)
    ensures var s := HappenAll(AT_REST, hs);
            && s.e.count == Int8(turns - s.consumed) && -4 < s.position - 4 * turns < 4
            && (PinsAt(s.position) == 0 ==> s.position == 4 * turns)
            && (-128 <= turns - s.consumed < 128 ==> s.e.count == turns - s.consumed)
  {
    hide HappenAll, Happen, Int8, Direction, PinsAt;
    assert Follows(AT_REST, 0) by { RestFollows(); }
    turns := HappeningsFollow(AT_REST, 0, hs);
    var s := HappenAll(AT_REST, hs);
    PinsNear(turns, s.position - 4 * turns);
    assert 4 * turns + (s.position - 4 * turns) == s.position;
    Int8Small(turns - s.consumed);
  }
}
