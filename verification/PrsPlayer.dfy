/** The player of PRS files, and what is heard of a saved song. */
module PrsPlayer {
  import opened MusicTrack
  import opened MusicMerge
  import opened PrsFormat

  /** What the driver is called with, and how long it waits before. */
  datatype Call = Call(code: Code, delta: int) | SetLfo(track: byte, depth: byte, rate: byte, delta: int)

  /** Calls made, the wait carried over, and whether the player gave up in the middle of a command. */
  datatype Playback = Playback(calls: seq<Call>, delta: int, broken: bool)

  function Behind(call: Call, p: Playback): Playback {
    p.(calls := [call] + p.calls)
  }

  /** The player from some position to the end of the file; `delta` is the wait read last. */
  function Decode(b: seq<byte>, delta: int): Playback
    decreases |b|
  {
    if |b| < 2 then Playback([], delta, false)
    else
      var kind := b[0] as int / 16;
      if kind == 7 then
        if |b| < 4 then Playback([], delta, true)
        else Decode(b[4..], b[1] as int + b[2] as int * 0x100 + b[3] as int * 0x1_0000)
      else if kind == 6 then
        if |b| < 4 then Playback([], delta, true) else Behind(SetLfo(b[1], b[2], b[3], delta), Decode(b[4..], 0))
      else if 1 <= kind <= 5 then Behind(Call(Code(b[0], b[1]), delta), Decode(b[2..], 0))
      else Decode(b[2..], 0)
  }

  /** A track muted or unmuted at once. */
  function MuteNow(track: nat, flag: byte): Call
    requires track < 3
  {
    Call(Code((OP_MUTE + track) as byte, flag), 0)
  }

  function Unmute(track: nat): Call
    requires track < 3
  {
    MuteNow(track, 0)
  }

  function At(file: seq<byte>, position: nat): seq<byte> {
    if position <= |file| then file[position..] else []
  }

  /** The calls when the file is played on from a position and goes back to the loop start `passes`
      times. */
  function PlayFrom(file: seq<byte>, position: nat, delta: int, loopStart: nat, passes: nat): seq<Call>
    decreases passes, 1
  {
    var p := Decode(At(file, position), delta);
    p.calls + PlayAgain(p, file, loopStart, passes)
  }

  function PlayAgain(p: Playback, file: seq<byte>, loopStart: nat, passes: nat): seq<Call>
    decreases passes, 0
  {
    if p.broken || loopStart == 0 || passes == 0 then []
    else [Unmute(0), Unmute(1), Unmute(2)] + PlayFrom(file, loopStart, p.delta, loopStart, passes - 1)
  }

  lemma {:induction false} PlayEnd(file: seq<byte>, position: nat, delta: int, loopStart: nat, passes: nat)
    requires |file| < position + 2
    ensures PlayFrom(file, position, delta, loopStart, passes)
            == PlayAgain(Playback([], delta, false), file, loopStart, passes)
  {
  }

  lemma {:induction false} PlayBroken(file: seq<byte>, position: nat, delta: int, loopStart: nat, passes: nat)
    requires position + 2 <= |file| < position + 4 && file[position] as int / 16 in {6, 7}
    ensures PlayFrom(file, position, delta, loopStart, passes) == []
  {
  }

  lemma {:induction false} PlayWait(file: seq<byte>, position: nat, delta: int, loopStart: nat, passes: nat)
    requires position + 4 <= |file| && file[position] as int / 16 == 7
    ensures var wait := file[position + 1] as int + file[position + 2] as int * 0x100
                        + file[position + 3] as int * 0x1_0000;
            PlayFrom(file, position, delta, loopStart, passes) == PlayFrom(file, position + 4, wait, loopStart, passes)
  {
    hide PlayAgain;
    assert At(file, position)[4..] == At(file, position + 4);
  }

  lemma {:induction false} PlaySkip(file: seq<byte>, position: nat, delta: int, loopStart: nat, passes: nat)
    requires position + 2 <= |file| && file[position] as int / 16 !in {1, 2, 3, 4, 5, 6, 7}
    ensures PlayFrom(file, position, delta, loopStart, passes) == PlayFrom(file, position + 2, 0, loopStart, passes)
  {
    hide PlayAgain;
    assert At(file, position)[2..] == At(file, position + 2);
  }

  lemma {:induction false} PlayCall(file: seq<byte>, position: nat, delta: int, loopStart: nat, passes: nat,
                                     call: Call, next: nat)
    requires next <= |file| && Decode(At(file, position), delta) == Behind(call, Decode(file[next..], 0))
    ensures PlayFrom(file, position, delta, loopStart, passes) == [call] + PlayFrom(file, next, 0, loopStart, passes)
  {
    hide Decode;
    var p := Decode(At(file, next), 0);
    assert PlayAgain(Behind(call, p), file, loopStart, passes) == PlayAgain(p, file, loopStart, passes);
  }

  lemma {:induction false} PlayCode(file: seq<byte>, position: nat, delta: int, loopStart: nat, passes: nat)
    requires position + 2 <= |file| && 1 <= file[position] as int / 16 <= 5
    ensures PlayFrom(file, position, delta, loopStart, passes)
            == [Call(Code(file[position], file[position + 1]), delta)]
               + PlayFrom(file, position + 2, 0, loopStart, passes)
  {
    hide PlayFrom;
    assert At(file, position)[2..] == file[position + 2..];
    PlayCall(file, position, delta, loopStart, passes,
             Call(Code(file[position], file[position + 1]), delta), position + 2);
  }

  lemma {:induction false} PlayLfo(file: seq<byte>, position: nat, delta: int, loopStart: nat, passes: nat)
    requires position + 4 <= |file| && file[position] as int / 16 == 6
    ensures PlayFrom(file, position, delta, loopStart, passes)
            == [SetLfo(file[position + 1], file[position + 2], file[position + 3], delta)]
               + PlayFrom(file, position + 4, 0, loopStart, passes)
  {
    hide PlayFrom;
    assert At(file, position)[4..] == file[position + 4..];
    var call := SetLfo(file[position + 1], file[position + 2], file[position + 3], delta);
    PlayCall(file, position, delta, loopStart, passes, call, position + 4);
  }

  /** `play_prs`. A file without a valid header only mutes the tracks. */
  method PlayPrs(file: seq<byte>, passes: nat) returns (calls: seq<Call>, valid: bool)
    ensures var check := CheckHeader(if HEADER_SIZE <= |file| then file[..HEADER_SIZE] else file);
            && (valid <==> check.Checked?)
            && calls == if valid then PlayFrom(file, HEADER_SIZE, 0, check.loopStart, passes)
                        else [MuteNow(0, 1), MuteNow(1, 1), MuteNow(2, 1)]
  {
    hide CheckHeader, PlayFrom, MuteNow;
    calls := [];
    var check := CheckHeader(if HEADER_SIZE <= |file| then file[..HEADER_SIZE] else file);
    valid := check.Checked?;
    if valid {
      calls := PlaySong(file, check.loopStart, passes);
    } else {
      for track := 0 to 3
        invariant |calls| == track && forall k :: 0 <= k < track ==> calls[k] == MuteNow(k, 1)
      {
        calls := calls + [MuteNow(track, 1)];
      }
    }
  }

  /** The loop of `play_prs`, stopped when it would go back to the loop start once more than `passes`
      times. */
  method PlaySong(file: seq<byte>, loopStart: nat, passes: nat) returns (calls: seq<Call>)
    ensures calls == PlayFrom(file, HEADER_SIZE, 0, loopStart, passes)
  {
    hide PlayFrom, Decode, MuteNow;
    calls := [];
    var position: nat, delta, left := HEADER_SIZE, 0, passes;
    ghost var all := PlayFrom(file, HEADER_SIZE, 0, loopStart, passes);
    assert [] + all == all;
    while true
      invariant calls + PlayFrom(file, position, delta, loopStart, left) == all
      decreases left, |file| - position
    {
      if |file| < position + 2 {
        PlayEnd(file, position, delta, loopStart, left);
        if loopStart == 0 || left == 0 { return; }
        calls := calls + [Unmute(0)] + [Unmute(1)] + [Unmute(2)];
        position, left := loopStart, left - 1;
        continue;
      }
      var op, val := file[position], file[position + 1];
      var kind := op as int / 16;
      if kind == 7 {
        if |file| < position + 4 {
          PlayBroken(file, position, delta, loopStart, left);
          return;
        }
        PlayWait(file, position, delta, loopStart, left);
        delta := val as int + file[position + 2] as int * 0x100 + file[position + 3] as int * 0x1_0000;
        position := position + 4;
        continue;
      } else if kind == 6 {
        if |file| < position + 4 {
          PlayBroken(file, position, delta, loopStart, left);
          return;
        }
        PlayLfo(file, position, delta, loopStart, left);
        calls := calls + [SetLfo(val, file[position + 2], file[position + 3], delta)];
        position := position + 4;
      } else if 1 <= kind <= 5 {
        PlayCode(file, position, delta, loopStart, left);
        calls := calls + [Call(Code(op, val), delta)];
        position := position + 2;
      } else {
        PlaySkip(file, position, delta, loopStart, left);
        position := position + 2;
      }
      delta := 0;
    }
  }
}
