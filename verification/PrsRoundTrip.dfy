/** A saved song plays its commands at the ticks they were compiled for. */
module PrsRoundTrip {
  import opened MusicTrack
  import opened MusicMerge
  import opened PrsFormat
  import opened PrsPlayer

  predicate ValidCode(c: Code) {
    1 <= c.op as int / 16 <= 5
  }

  predicate ValidStep(s: Step) {
    (forall k :: 0 <= k < |s.codes| ==> ValidCode(s.codes[k])) && (s.segno ==> s.codes == [])
  }

  predicate ValidSteps(steps: seq<Step>) {
    forall i :: 0 <= i < |steps| ==> ValidStep(steps[i])
  }

  // ---------------------------------------------------------------- reading what was written

  function CallsOf(codes: seq<Code>, delta: int): seq<Call> {
    if codes == [] then [] else [Call(codes[0], delta)] + CallsOf(codes[1..], 0)
  }

  /** A wait replaces the one before it, and only 24 bits of it are saved. */
  function WaitRead(delta: int, pending: int): int {
    if 0 < delta then delta % WAIT_LIMIT else pending
  }

  /** The calls a song makes, without going through bytes. */
  function Direct(steps: seq<Step>, pending: int): Playback {
    if steps == [] then Playback([], pending, false)
    else
      var wait := WaitRead(steps[0].delta, pending);
      var rest := Direct(steps[1..], if steps[0].codes == [] then wait else 0);
      rest.(calls := CallsOf(steps[0].codes, wait) + rest.calls)
  }

  lemma {:induction false} DecodeWait(delta: int, rest: seq<byte>, pending: int)
    ensures Decode(WaitBytes(delta) + rest, pending) == Decode(rest, WaitRead(delta, pending))
  {
    if 0 < delta {
      var b := WaitBytes(delta) + rest;
      assert b[4..] == rest && b[0] == WAIT;
      assert b[1] == Low(delta) && b[2] == Low(delta / 0x100) && b[3] == Low(delta / 0x1_0000);
      var a, c := delta / 0x100, delta / 0x1_0000;
      assert delta == a * 0x100 + delta % 0x100 && a == c * 0x100 + a % 0x100;
      assert c == (delta / WAIT_LIMIT) * 0x100 + c % 0x100;
      assert delta == (delta / WAIT_LIMIT) * WAIT_LIMIT + delta % WAIT_LIMIT;
    } else {
      assert WaitBytes(delta) + rest == rest;
    }
  }

  lemma {:induction false} DecodeCodes(codes: seq<Code>, rest: seq<byte>, delta: int)
    requires forall k :: 0 <= k < |codes| ==> ValidCode(codes[k])
    ensures var p := Decode(rest, if codes == [] then delta else 0);
            Decode(CodeBytes(codes) + rest, delta) == p.(calls := CallsOf(codes, delta) + p.calls)
  {
    var b := CodeBytes(codes) + rest;
    if codes == [] {
      assert b == rest;
    } else {
      assert b[2..] == CodeBytes(codes[1..]) + rest;
      assert b[0] == codes[0].op && b[1] == codes[0].value && ValidCode(codes[0]);
      DecodeCodes(codes[1..], rest, 0);
      assert codes[1..] == [] || codes[1..] != [];
      DecodeFirst(b, delta);
      assert Code(b[0], b[1]) == codes[0];
    }
  }

  lemma {:induction false} DecodeFirst(b: seq<byte>, delta: int)
    requires 2 <= |b| && 1 <= b[0] as int / 16 <= 5
    ensures Decode(b, delta) == Behind(Call(Code(b[0], b[1]), delta), Decode(b[2..], 0))
  {
  }

  /** The player makes exactly the calls of the saved steps. */
  lemma {:induction false} DecodeEncoded(steps: seq<Step>, pending: int)
    requires ValidSteps(steps)
    ensures Decode(Encode(steps), pending) == Direct(steps, pending)
  {
    if steps != [] {
      hide Decode, WaitBytes, CodeBytes, CallsOf, ValidCode;
      var s, rest := steps[0], Encode(steps[1..]);
      var wait := WaitRead(s.delta, pending);
      assert ValidStep(s);
      assert Encode(steps) == WaitBytes(s.delta) + (CodeBytes(s.codes) + rest);
      DecodeWait(s.delta, CodeBytes(s.codes) + rest, pending);
      DecodeCodes(s.codes, rest, wait);
      DecodeEncoded(steps[1..], if s.codes == [] then wait else 0);
    } else {
      assert Encode(steps) == [];
    }
  }

  // ---------------------------------------------------------------- times

  datatype Sound = Sound(time: int, code: Code)

  /** When the calls take effect. */
  function Heard(calls: seq<Call>, clock: int): seq<Sound> {
    if calls == [] then []
    else
      var time := clock + calls[0].delta;
      (if calls[0].Call? then [Sound(time, calls[0].code)] else []) + Heard(calls[1..], time)
  }

  function Together(codes: seq<Code>, time: int): (r: seq<Sound>)
    ensures |r| == |codes| && forall k :: 0 <= k < |r| ==> r[k] == Sound(time, codes[k])
  {
    if codes == [] then [] else [Sound(time, codes[0])] + Together(codes[1..], time)
  }

  /** When they were compiled for. */
  function Meant(steps: seq<Step>, now: int): seq<Sound> {
    if steps == [] then []
    else
      var time := now + steps[0].delta;
      Together(steps[0].codes, time) + Meant(steps[1..], time)
  }

  /** No wait is too long for its 24 bits, and none follows another before a command. */
  predicate Kept(steps: seq<Step>, pending: int) {
    if steps == [] then true
    else
      && (0 < steps[0].delta ==> pending == 0 && steps[0].delta < WAIT_LIMIT)
      && Kept(steps[1..], if steps[0].codes == [] then WaitRead(steps[0].delta, pending) else 0)
  }

  predicate Forward(steps: seq<Step>) {
    forall i :: 0 <= i < |steps| ==> 0 <= steps[i].delta
  }

  lemma {:induction false} HeardCodes(codes: seq<Code>, delta: int, rest: seq<Call>, clock: int)
    ensures Heard(CallsOf(codes, delta) + rest, clock)
            == Together(codes, clock + delta) + Heard(rest, if codes == [] then clock else clock + delta)
  {
    var calls := CallsOf(codes, delta) + rest;
    if codes == [] {
      assert calls == rest;
    } else {
      assert calls[1..] == CallsOf(codes[1..], 0) + rest;
      HeardCodes(codes[1..], 0, rest, clock + delta);
    }
  }

  lemma {:induction false} HeardStep(steps: seq<Step>, pending: int, clock: int)
    requires steps != []
    ensures var s, wait := steps[0], WaitRead(steps[0].delta, pending);
            Heard(Direct(steps, pending).calls, clock)
            == Together(s.codes, clock + wait)
               + Heard(Direct(steps[1..], if s.codes == [] then wait else 0).calls,
                       if s.codes == [] then clock else clock + wait)
  {
    hide Heard, CallsOf, Together;
    var s, wait := steps[0], WaitRead(steps[0].delta, pending);
    HeardCodes(s.codes, wait, Direct(steps[1..], if s.codes == [] then wait else 0).calls, clock);
  }

  lemma {:induction false} WaitBound(delta: int, pending: int)
    requires 0 <= delta && 0 <= pending
    ensures 0 <= WaitRead(delta, pending) <= pending + delta
    ensures WaitRead(delta, pending) == pending + delta <==> (0 < delta ==> pending == 0 && delta < WAIT_LIMIT)
  {
  }

  lemma {:induction false} MeantStep(steps: seq<Step>, now: int)
    requires steps != []
    ensures Meant(steps, now)
            == Together(steps[0].codes, now + steps[0].delta) + Meant(steps[1..], now + steps[0].delta)
  {
  }

  lemma {:induction false} KeptIsHeard(steps: seq<Step>, pending: int, clock: int)
    requires Forward(steps) && 0 <= pending && Kept(steps, pending)
    ensures Heard(Direct(steps, pending).calls, clock) == Meant(steps, clock + pending)
  {
    hide *;
    if steps == [] {
      NothingHeard(pending, clock, clock + pending);
    } else {
      var s, rest, wait := steps[0], steps[1..], WaitRead(steps[0].delta, pending);
      var time := clock + wait;
      KeptHead(steps, pending);
      WaitBound(s.delta, pending);
      HeardStep(steps, pending, clock);
      MeantStep(steps, clock + pending);
      assert clock + pending + s.delta == time;
      if s.codes == [] {
        KeptIsHeard(rest, wait, clock);
      } else {
        KeptIsHeard(rest, 0, time);
        assert time + 0 == time;
      }
    }
  }

  lemma {:induction false} KeptHead(steps: seq<Step>, pending: int)
    requires steps != [] && Forward(steps) && Kept(steps, pending)
    ensures 0 <= steps[0].delta && (0 < steps[0].delta ==> pending == 0 && steps[0].delta < WAIT_LIMIT)
    ensures Kept(steps[1..], if steps[0].codes == [] then WaitRead(steps[0].delta, pending) else 0)
    ensures Forward(steps[1..])
  {
  }

  /** Once a wait is lost or cut short, all that follows is heard too early. */
  lemma {:induction false} LostIsEarly(steps: seq<Step>, pending: int, clock: int, now: int)
    requires Forward(steps) && 0 <= pending && clock + pending <= now
    requires clock + pending < now || !Kept(steps, pending)
    requires steps != [] && steps[|steps| - 1].codes != []
    ensures var heard, meant := Heard(Direct(steps, pending).calls, clock), Meant(steps, now);
            |heard| == |meant| > 0 && heard[|heard| - 1].time < meant[|meant| - 1].time
  {
    hide Direct, Heard, Together, WaitRead, Meant;
    HeardStep(steps, pending, clock);
    MeantStep(steps, now);
    var s, wait := steps[0], WaitRead(steps[0].delta, pending);
    WaitBound(s.delta, pending);
    var pending', clock' := if s.codes == [] then wait else 0, if s.codes == [] then clock else clock + wait;
    if |steps| > 1 {
      assert steps[1..][|steps| - 2] == steps[|steps| - 1];
      LostIsEarly(steps[1..], pending', clock', now + s.delta);
    } else {
      assert steps[1..] == [];
      NothingHeard(pending', clock', now + s.delta);
    }
  }

  lemma {:induction false} NothingHeard(pending: int, clock: int, now: int)
    ensures Heard(Direct([], pending).calls, clock) == [] && Meant([], now) == [] && Kept([], pending)
  {
  }

  /** The player's times are right if and only if no wait is lost or cut short. */
  lemma {:induction false} TimesAreKept(steps: seq<Step>, start: int)
    requires Forward(steps) && steps != [] && steps[|steps| - 1].codes != []
    ensures Heard(Direct(steps, 0).calls, start) == Meant(steps, start) <==> Kept(steps, 0)
  {
    if Kept(steps, 0) {
      KeptIsHeard(steps, 0, start);
    } else {
      LostIsEarly(steps, 0, start, start);
    }
  }

  // ---------------------------------------------------------------- what the compiler guarantees

  /** Only these commands leave no trace in the file. */
  predicate Silent(e: Event) {
    e.command == Segno || e.command == Legato
  }

  lemma {:induction false} CodesSilent(tr: nat, e: Event, mixer: int)
    requires !Raises(e)
    ensures Codes(tr, e, mixer) == [] <==> Silent(e)
    ensures forall k :: 0 <= k < |Codes(tr, e, mixer)| ==> ValidCode(Codes(tr, e, mixer)[k])
  {
    hide Low;
  }

  lemma {:induction false} StepsValid(items: seq<Item>, mixer: int)
    requires NothingRaises(items)
    ensures ValidSteps(Steps(items, mixer))
    ensures forall i :: 0 <= i < |items| ==> Steps(items, mixer)[i].delta == items[i].delta
    ensures forall i :: 0 <= i < |items| ==> (Steps(items, mixer)[i].codes == [] <==> Silent(items[i].event))
    decreases |items|
  {
    hide Codes, MixerAfter, ValidCode, Silent, Raises;
    if items != [] {
      var after := MixerAfter(items[0].track, items[0].event, mixer);
      CodesSilent(items[0].track, items[0].event, after);
      assert items[0].event.command == Segno ==> Silent(items[0].event) by { SegnoIsSilent(items[0].event); }
      StepsValid(items[1..], after);
    }
  }

  lemma {:induction false} SegnoIsSilent(e: Event)
    ensures e.command == Segno ==> Silent(e)
  {
  }

  /** The last event of a track under way leaves a trace, and silent events take no time. */
  predicate EndsAudibly(v: Voice) {
    v.events != [] ==> !Silent(v.events[|v.events| - 1])
  }

  predicate AllEndAudibly(voices: seq<Voice>) {
    forall t :: 0 <= t < |voices| ==> EndsAudibly(voices[t])
  }

  /** Some track's next event is due now. */
  predicate DueNow(voices: seq<Voice>, now: int) {
    exists t :: 0 <= t < |voices| && voices[t].events != [] && voices[t].tick == now
  }

  lemma {:induction false} NextEndsAudibly(voices: seq<Voice>)
    requires AllEndAudibly(voices) && Earliest(voices) < |voices|
    ensures AllEndAudibly(Next(voices))
    ensures Silent(voices[Earliest(voices)].events[0]) ==> DueNow(Next(voices), voices[Earliest(voices)].tick)
  {
    hide Earliest;
    var m := Earliest(voices);
    assert EndsAudibly(voices[m]);
    forall t | 0 <= t < |voices| ensures EndsAudibly(Next(voices)[t]) {
      if t != m { assert Next(voices)[t] == voices[t]; }
    }
    if Silent(voices[m].events[0]) {
      assert Next(voices)[m] == After(voices[m]);
      assert 1 < |voices[m].events|;
      assert Next(voices)[m].tick == voices[m].tick;
    }
  }

  lemma {:induction false} DueNowIsEarliest(voices: seq<Voice>, now: int)
    requires Due(voices, now) && DueNow(voices, now)
    ensures Earliest(voices) < |voices| && voices[Earliest(voices)].tick == now
  {
  }

  /** The merge never puts a wait behind another: after a silent event its own track is due at once. */
  lemma {:induction false} MergeIsKept(voices: seq<Voice>, prev: int, mixer: int, pending: int)
    requires Lengths(voices) && Due(voices, prev) && AllEndAudibly(voices) && NothingRaises(Merge(voices, prev))
    requires forall i :: 0 <= i < |Merge(voices, prev)| ==> Merge(voices, prev)[i].delta < WAIT_LIMIT
    requires pending != 0 ==> DueNow(voices, prev)
    ensures Kept(Steps(Merge(voices, prev), mixer), pending)
    decreases Pending(voices)
  {
    hide *;
    if Earliest(voices) == |voices| {
      MergeNone(voices, prev);
      NothingKept(mixer, pending);
    } else {
      var m, tick := Earliest(voices), voices[Earliest(voices)].tick;
      var event, tail := voices[m].events[0], Merge(Next(voices), tick);
      MergeHead(voices, prev);
      NextDue(voices);
      NextEndsAudibly(voices);
      IsDue(voices, prev);
      var item := Item(tick - prev, m, event);
      assert Merge(voices, prev) == [item] + tail;
      assert Merge(voices, prev)[0] == item && forall i :: 0 <= i < |tail| ==> Merge(voices, prev)[i + 1] == tail[i];
      TailRaisesNothing(item, tail);
      CodesSilent(m, event, MixerAfter(m, event, mixer));
      if pending != 0 { DueNowIsEarliest(voices, prev); }
      var pending' := if Silent(event) then WaitRead(tick - prev, pending) else 0;
      MergeIsKept(Next(voices), tick, MixerAfter(m, event, mixer), pending');
      KeptStep(item, tail, mixer, pending);
    }
  }

  lemma {:induction false} NothingKept(mixer: int, pending: int)
    ensures Kept(Steps([], mixer), pending)
  {
  }

  lemma {:induction false} TailRaisesNothing(item: Item, tail: seq<Item>)
    requires NothingRaises([item] + tail)
    ensures !Raises(item.event) && NothingRaises(tail)
  {
    hide Raises;
    var items := [item] + tail;
    assert items[0] == item;
    assert forall i :: 0 <= i < |tail| ==> items[i + 1] == tail[i];
  }

  lemma {:induction false} KeptStep(item: Item, tail: seq<Item>, mixer: int, pending: int)
    requires 0 <= item.delta < WAIT_LIMIT && (0 < item.delta ==> pending == 0)
    requires var after := MixerAfter(item.track, item.event, mixer);
             Codes(item.track, item.event, after) == [] <==> Silent(item.event)
    requires Kept(Steps(tail, MixerAfter(item.track, item.event, mixer)),
                  if Silent(item.event) then WaitRead(item.delta, pending) else 0)
    ensures Kept(Steps([item] + tail, mixer), pending)
  {
    hide Codes, Silent, MixerAfter, WaitRead;
    assert ([item] + tail)[1..] == tail;
    var steps := Steps([item] + tail, mixer);
    assert steps[1..] == Steps(tail, MixerAfter(item.track, item.event, mixer));
  }

  // ---------------------------------------------------------------- the song as heard

  /** The commands of a timeline, each at its moment. */
  function Sounded(moments: seq<Moment>, mixer: int): seq<Sound> {
    if moments == [] then []
    else
      var a := moments[0];
      var after := MixerAfter(a.track, a.event, mixer);
      Together(Codes(a.track, a.event, after), a.time) + Sounded(moments[1..], after)
  }

  lemma {:induction false} MeantIsSounded(items: seq<Item>, mixer: int, start: int)
    ensures Meant(Steps(items, mixer), start) == Sounded(Timeline(items, start), mixer)
    decreases |items|
  {
    hide Codes, MixerAfter, Together;
    if items != [] {
      var after := MixerAfter(items[0].track, items[0].event, mixer);
      MeantIsSounded(items[1..], after, start + items[0].delta);
      assert Steps(items, mixer)[1..] == Steps(items[1..], after);
      assert Timeline(items, start)[1..] == Timeline(items[1..], start + items[0].delta);
    }
  }

  /** What is played from the loop start on: the steps after the last segno. */
  function LoopPart(steps: seq<Step>, otherwise: seq<Step>): seq<Step> {
    if steps == [] then otherwise else LoopPart(steps[1..], if steps[0].segno then steps[1..] else otherwise)
  }

  lemma {:induction false} LoopStep(steps: seq<Step>, before: seq<byte>, start: nat, otherwise: seq<Step>)
    requires steps != []
    ensures var s, here := steps[0], before + WaitBytes(steps[0].delta);
            && LoopStart(steps, |before|, start)
               == LoopStart(steps[1..], |here + CodeBytes(s.codes)|, if s.segno then |here| + HEADER_SIZE else start)
            && LoopPart(steps, otherwise) == LoopPart(steps[1..], if s.segno then steps[1..] else otherwise)
  {
    hide WaitBytes;
  }

  lemma {:induction false} SegnoEmpty(s: Step, here: seq<byte>)
    requires ValidStep(s)
    ensures s.segno ==> here + CodeBytes(s.codes) == here
  {
  }

  lemma {:induction false} LoopNowhere(before: seq<byte>, start: nat, otherwise: seq<Step>)
    ensures LoopStart([], |before|, start) == start && LoopPart([], otherwise) == otherwise
    ensures before + Encode([]) == before
  {
  }

  predicate NoSegno(steps: seq<Step>) {
    forall i :: 0 <= i < |steps| ==> !steps[i].segno
  }

  /** A file position leads to a part of the song. */
  predicate LeadsTo(at: nat, song: seq<byte>, part: seq<byte>) {
    HEADER_SIZE <= at <= HEADER_SIZE + |song| && song[at - HEADER_SIZE..] == part
  }

  lemma {:induction false} LeadsToBehind(before: seq<byte>, part: seq<byte>)
    ensures LeadsTo(|before| + HEADER_SIZE, before + part, part)
  {
  }

  /** The saved loop start is the place of the steps after the last segno, and 0 if there is none. */
  lemma {:induction false} LoopStartIsAfterSegno(steps: seq<Step>, before: seq<byte>, start: nat, otherwise: seq<Step>)
    requires ValidSteps(steps)
    requires start != 0 ==> LeadsTo(start, before + Encode(steps), Encode(otherwise))
    ensures var at := LoopStart(steps, |before|, start);
            if at == 0 then start == 0 && NoSegno(steps)
            else LeadsTo(at, before + Encode(steps), Encode(LoopPart(steps, otherwise)))
    decreases |steps|
  {
    hide Encode, WaitBytes, CodeBytes, ValidStep, LoopStart, LoopPart, LeadsTo;
    if steps == [] {
      LoopNowhere(before, start, otherwise);
    } else {
      var s, rest := steps[0], steps[1..];
      assert ValidStep(s);
      var here := before + WaitBytes(s.delta);
      var after := here + CodeBytes(s.codes);
      LoopStep(steps, before, start, otherwise);
      EncodeHead(steps, before);
      SegnoEmpty(s, here);
      if s.segno {
        LeadsToBehind(here, Encode(rest));
        LoopStartIsAfterSegno(rest, after, |here| + HEADER_SIZE, rest);
      } else {
        LoopStartIsAfterSegno(rest, after, start, otherwise);
      }
    }
  }

  lemma {:induction false} EncodeHead(steps: seq<Step>, before: seq<byte>)
    requires steps != []
    ensures before + Encode(steps)
            == ((before + WaitBytes(steps[0].delta)) + CodeBytes(steps[0].codes)) + Encode(steps[1..])
  {
    hide WaitBytes, CodeBytes;
  }

  /** The song ends with a command. */
  predicate EndsWithCode(steps: seq<Step>) {
    steps != [] && steps[|steps| - 1].codes != []
  }

  lemma {:induction false} DirectEnds(steps: seq<Step>, pending: int)
    requires EndsWithCode(steps)
    ensures Direct(steps, pending).delta == 0 && !Direct(steps, pending).broken
  {
    hide CallsOf, WaitRead;
    var rest := steps[1..];
    if rest != [] {
      assert rest[|rest| - 1] == steps[|steps| - 1];
      DirectEnds(rest, if steps[0].codes == [] then WaitRead(steps[0].delta, pending) else 0);
    }
  }

  lemma {:induction false} KeptFromZero(steps: seq<Step>, pending: int)
    requires Forward(steps) && 0 <= pending && Kept(steps, pending)
    ensures Kept(steps, 0)
  {
    if steps != [] {
      hide WaitRead;
      WaitBound(steps[0].delta, pending);
      WaitBound(steps[0].delta, 0);
      if steps[0].codes == [] { KeptFromZero(steps[1..], WaitRead(steps[0].delta, pending)); }
      if steps[0].delta == 0 && steps[0].codes == [] { assert WaitRead(0, 0) == 0 && WaitRead(0, pending) == pending; }
    }
  }

  predicate Playable(steps: seq<Step>) {
    ValidSteps(steps) && Forward(steps) && EndsWithCode(steps) && Kept(steps, 0)
  }

  lemma {:induction false} TailPlayable(steps: seq<Step>)
    requires Playable(steps) && 1 < |steps|
    ensures Playable(steps[1..])
  {
    var rest := steps[1..];
    assert forall i :: 0 <= i < |rest| ==> rest[i] == steps[i + 1];
    hide Kept;
    KeptHead(steps, 0);
    WaitBound(steps[0].delta, 0);
    KeptFromZero(rest, if steps[0].codes == [] then WaitRead(steps[0].delta, 0) else 0);
  }

  lemma {:induction false} LoopPartPlayable(steps: seq<Step>, otherwise: seq<Step>)
    requires Playable(steps) && (NoSegno(steps) ==> Playable(otherwise)) && (otherwise != [] ==> Playable(otherwise))
    ensures Playable(LoopPart(steps, otherwise))
  {
    hide ValidStep, Kept, Forward;
    var rest := steps[1..];
    assert forall i :: 0 <= i < |rest| ==> rest[i] == steps[i + 1];
    assert ValidStep(steps[0]);
    if rest == [] {
      NoCodeNoSegno(steps[0]);
      assert LoopPart(rest, otherwise) == otherwise;
    } else {
      TailPlayable(steps);
      LoopPartPlayable(rest, if steps[0].segno then rest else otherwise);
    }
  }

  lemma {:induction false} NoCodeNoSegno(s: Step)
    requires ValidStep(s)
    ensures s.codes != [] ==> !s.segno
  {
  }

  lemma {:induction false} MergeEndsAudibly(voices: seq<Voice>, prev: int)
    requires AllEndAudibly(voices) && Earliest(voices) < |voices|
    ensures var items := Merge(voices, prev);
            items != [] && !Silent(items[|items| - 1].event)
    decreases Pending(voices)
  {
    hide Merge, Earliest, Silent, Pending, Next, AllEndAudibly;
    var m, tick := Earliest(voices), voices[Earliest(voices)].tick;
    MergeHead(voices, prev);
    NextEndsAudibly(voices);
    var tail := Merge(Next(voices), tick);
    if Earliest(Next(voices)) < |voices| {
      MergeEndsAudibly(Next(voices), tick);
      assert Merge(voices, prev)[|tail|] == tail[|tail| - 1];
    } else {
      MergeNone(Next(voices), tick);
      LastIsAudible(voices);
    }
  }

  lemma {:induction false} LastIsAudible(voices: seq<Voice>)
    requires AllEndAudibly(voices) && Earliest(voices) < |voices| && Earliest(Next(voices)) == |voices|
    ensures !Silent(voices[Earliest(voices)].events[0])
  {
    var m := Earliest(voices);
    assert Next(voices)[m].events == [];
    assert EndsAudibly(voices[m]);
  }

  lemma {:induction false} TracksEndAudibly(tracks: seq<seq<Token>>)
    ensures AllEndAudibly(Voices(tracks))
  {
    hide Events;
  }

  lemma {:induction false} WaitsFit()
    ensures WAIT_MAX + 1 == WAIT_LIMIT
  {
  }

  /** The steps of any tracks with short enough notes can be played. */
  lemma {:induction false} SongPlayable(tracks: seq<seq<Token>>)
    requires tracks != [] && NotesWithin(tracks, WAIT_MAX) && NothingRaises(Merge(Voices(tracks), 0))
    ensures Playable(Steps(Merge(Voices(tracks), 0), MIXER))
  {
    hide *;
    var voices := Voices(tracks);
    var items := Merge(voices, 0);
    CompiledTracks(tracks, WAIT_MAX);
    TracksEndAudibly(tracks);
    TracksStart(tracks, WAIT_MAX);
    assert WAIT_MAX < WAIT_LIMIT by { WaitsFit(); }
    MergeIsKept(voices, 0, MIXER, 0);
    MergeEndsAudibly(voices, 0);
    StepsValid(items, MIXER);
    PlayableBy(items, Steps(items, MIXER));
  }

  lemma {:induction false} PlayableBy(items: seq<Item>, steps: seq<Step>)
    requires items != [] && |steps| == |items| && ValidSteps(steps) && Kept(steps, 0)
    requires forall i :: 0 <= i < |items| ==> 0 <= items[i].delta && steps[i].delta == items[i].delta
    requires steps[|steps| - 1].codes != []
    ensures Playable(steps)
  {
    hide ValidSteps, Kept;
  }

  lemma {:induction false} TracksStart(tracks: seq<seq<Token>>, bound: nat)
    requires tracks != [] && NotesWithin(tracks, bound)
    ensures Lengths(Voices(tracks)) && Due(Voices(tracks), 0) && Earliest(Voices(tracks)) < |Voices(tracks)|
  {
    hide TrackEvents, Earliest, NoteLength;
    forall t | 0 <= t < |tracks| ensures NoneNegative(Voices(tracks)[t]) && Voices(tracks)[t].events != [] {
      TrackDuration(tracks[t], bound);
    }
    SomeIsDue(Voices(tracks));
  }

  /** Saved and played, every command of every track is heard at the tick it was compiled for. */
  lemma {:induction false} SavedSongIsHeard(tracks: seq<seq<Token>>, songname: seq<byte>)
    requires 1 <= |tracks| <= MAX_TRACKS && NotesWithin(tracks, WAIT_MAX)
    requires NothingRaises(Merge(Voices(tracks), 0)) && |Saved(tracks, songname)| < 0x1_0000_0000
    ensures var steps, file := Steps(Merge(Voices(tracks), 0), MIXER), Saved(tracks, songname);
            && CheckHeader(file[..HEADER_SIZE]) == Checked(|Encode(steps)|, LoopStart(steps, 0, 0))
            && Decode(file[HEADER_SIZE..], 0) == Direct(steps, 0)
            && Heard(Decode(file[HEADER_SIZE..], 0).calls, 0) == Sounded(Timeline(Merge(Voices(tracks), 0), 0), MIXER)
  {
    hide *;
    var items := Merge(Voices(tracks), 0);
    var steps := Steps(items, MIXER);
    SongPlayable(tracks);
    PlayableParts(steps);
    SavedParts(tracks, songname);
    HeaderReads(|tracks|, songname, |Encode(steps)|, LoopStart(steps, 0, 0));
    DecodeEncoded(steps, 0);
    KeptIsHeard(steps, 0, 0);
    MeantIsSounded(items, MIXER, 0);
  }

  lemma {:induction false} PlayableParts(steps: seq<Step>)
    requires Playable(steps)
    ensures ValidSteps(steps) && Forward(steps) && EndsWithCode(steps) && Kept(steps, 0)
  {
  }

  lemma {:induction false} SavedParts(tracks: seq<seq<Token>>, songname: seq<byte>)
    requires ValidSteps(Steps(Merge(Voices(tracks), 0), MIXER))
    ensures var steps, file := Steps(Merge(Voices(tracks), 0), MIXER), Saved(tracks, songname);
            && |file| == HEADER_SIZE + |Encode(steps)| && LoopStart(steps, 0, 0) <= |file|
            && file[HEADER_SIZE..] == Encode(steps)
            && file[..HEADER_SIZE] == Header(|tracks|, songname, |Encode(steps)|, LoopStart(steps, 0, 0))
            && (LoopStart(steps, 0, 0) == 0 ==> NoSegno(steps))
            && (LoopStart(steps, 0, 0) != 0 ==> At(file, LoopStart(steps, 0, 0)) == Encode(LoopPart(steps, [])))
  {
    hide Encode, LoopPart, LoopStart, Header, Merge, Voices, Steps, ValidSteps, NoSegno, LeadsTo, At;
    var steps := Steps(Merge(Voices(tracks), 0), MIXER);
    var at, song := LoopStart(steps, 0, 0), Encode(steps);
    var head := Header(|tracks|, songname, |song|, at);
    assert [] + song == song;
    LoopStartIsAfterSegno(steps, [], 0, []);
    HeadAndSong(head, song);
    if at != 0 { LeadsToIsAt(head, song, at, Encode(LoopPart(steps, []))); }
  }

  lemma {:induction false} HeadAndSong(head: seq<byte>, song: seq<byte>)
    ensures (head + song)[..|head|] == head && (head + song)[|head|..] == song
  {
  }

  lemma {:induction false} LeadsToIsAt(head: seq<byte>, song: seq<byte>, at: nat, part: seq<byte>)
    requires |head| == HEADER_SIZE && LeadsTo(at, song, part)
    ensures at <= |head + song| && At(head + song, at) == part
  {
    assert (head + song)[at..] == song[at - HEADER_SIZE..];
  }

  /** What is played after the first pass. */
  function Repeats(part: seq<Call>, passes: nat): seq<Call> {
    if passes == 0 then [] else [Unmute(0), Unmute(1), Unmute(2)] + (part + Repeats(part, passes - 1))
  }

  lemma {:induction false} LoopPlays(file: seq<byte>, loopStart: nat, part: seq<Step>, passes: nat)
    requires loopStart != 0 && At(file, loopStart) == Encode(part) && ValidSteps(part) && EndsWithCode(part)
    ensures PlayAgain(Playback([], 0, false), file, loopStart, passes) == Repeats(Direct(part, 0).calls, passes)
  {
    if passes > 0 {
      hide Direct, Decode, Encode, ValidSteps, EndsWithCode, At;
      DecodeEncoded(part, 0);
      DirectEnds(part, 0);
      LoopPlays(file, loopStart, part, passes - 1);
      var p := Direct(part, 0);
      assert PlayAgain(p, file, loopStart, passes - 1)
             == PlayAgain(Playback([], 0, false), file, loopStart, passes - 1);
    }
  }

  /** The calls of a song: all of it, and what follows its last segno again for each further pass. */
  function SongCalls(tracks: seq<seq<Token>>, passes: nat): seq<Call> {
    var steps := Steps(Merge(Voices(tracks), 0), MIXER);
    Direct(steps, 0).calls + (if NoSegno(steps) then [] else Repeats(Direct(LoopPart(steps, []), 0).calls, passes))
  }

  /** A saved song with a segno goes on with what follows the last one, as often as it is let: each time
      the tracks are unmuted and its commands are heard at the distances they were compiled for. Where to
      go on is read from the file's header. */
  lemma {:induction false} SavedSongLoops(tracks: seq<seq<Token>>, songname: seq<byte>, passes: nat)
    requires 1 <= |tracks| <= MAX_TRACKS && NotesWithin(tracks, WAIT_MAX) && NothingRaises(Merge(Voices(tracks), 0))
    requires |Saved(tracks, songname)| < 0x1_0000_0000
    ensures var steps, file := Steps(Merge(Voices(tracks), 0), MIXER), Saved(tracks, songname);
            var part := LoopPart(steps, []);
            && HEADER_SIZE <= |file| && CheckHeader(file[..HEADER_SIZE]).Checked?
            && (NoSegno(steps) <==> CheckHeader(file[..HEADER_SIZE]).loopStart == 0)
            && PlayFrom(file, HEADER_SIZE, 0, CheckHeader(file[..HEADER_SIZE]).loopStart, passes)
               == SongCalls(tracks, passes)
            && (!NoSegno(steps) ==> forall t: int :: Heard(Direct(part, 0).calls, t) == Meant(part, t))
  {
    hide *;
    var steps, file := Steps(Merge(Voices(tracks), 0), MIXER), Saved(tracks, songname);
    var at, part := LoopStart(steps, 0, 0), LoopPart(steps, []);
    SongPlayable(tracks);
    PlayableParts(steps);
    SavedParts(tracks, songname);
    HeaderReads(|tracks|, songname, |Encode(steps)|, at);
    AtBehind(file);
    DecodeEncoded(steps, 0);
    DirectEnds(steps, 0);
    PlayFromStart(file, steps, at, passes);
    SegnoMeansLoop(steps, 0, 0);
    SongCallsAre(tracks, passes);
    if !NoSegno(steps) {
      NothingPlayable();
      LoopPartPlayable(steps, []);
      PlayableParts(part);
      LoopPlays(file, at, part, passes);
      forall t: int ensures Heard(Direct(part, 0).calls, t) == Meant(part, t) {
        KeptIsHeard(part, 0, t);
        assert t + 0 == t;
      }
    }
  }

  lemma {:induction false} SongCallsAre(tracks: seq<seq<Token>>, passes: nat)
    ensures var steps := Steps(Merge(Voices(tracks), 0), MIXER);
            SongCalls(tracks, passes)
            == Direct(steps, 0).calls
               + (if NoSegno(steps) then [] else Repeats(Direct(LoopPart(steps, []), 0).calls, passes))
  {}

  /** From tracks to calls through the file: what the compiler saves and the player plays. */
  method SaveAndPlay(tracks: seq<seq<Token>>, songname: seq<byte>, passes: nat) returns (calls: seq<Call>, saved: bool)
    ensures saved <==> 1 <= |tracks| <= MAX_TRACKS && NothingRaises(Merge(Voices(tracks), 0))
    ensures saved && NotesWithin(tracks, WAIT_MAX) && |Saved(tracks, songname)| < 0x1_0000_0000 ==>
      calls == SongCalls(tracks, passes)
  {
    hide *;
    var compiler := new Compiler();
    calls := [];
    saved := compiler.SaveTo(tracks, songname);
    if !saved { return; }
    var file := compiler.file;
    var valid;
    calls, valid := PlayPrs(file, passes);
    if NotesWithin(tracks, WAIT_MAX) && |Saved(tracks, songname)| < 0x1_0000_0000 {
      SavedSongLoops(tracks, songname, passes);
    }
  }

  lemma {:induction false} NothingPlayable()
    ensures !Playable([])
  {
  }

  lemma {:induction false} AtBehind(file: seq<byte>)
    requires HEADER_SIZE <= |file|
    ensures At(file, HEADER_SIZE) == file[HEADER_SIZE..]
  {
  }

  lemma {:induction false} PlayFromStart(file: seq<byte>, steps: seq<Step>, at: nat, passes: nat)
    requires Decode(At(file, HEADER_SIZE), 0) == Direct(steps, 0)
    requires Direct(steps, 0).delta == 0 && !Direct(steps, 0).broken
    ensures PlayFrom(file, HEADER_SIZE, 0, at, passes)
            == Direct(steps, 0).calls + PlayAgain(Playback([], 0, false), file, at, passes)
    ensures at == 0 ==> PlayAgain(Playback([], 0, false), file, at, passes) == []
  {
    hide Decode, Direct, At;
  }

  lemma {:induction false} SegnoMeansLoop(steps: seq<Step>, at: nat, start: nat)
    ensures LoopStart(steps, at, start) == 0 <==> start == 0 && NoSegno(steps)
  {
    if steps != [] {
      hide WaitBytes;
      var s, here := steps[0], at + |WaitBytes(steps[0].delta)|;
      SegnoMeansLoop(steps[1..], here + 2 * |s.codes|, if s.segno then here + HEADER_SIZE else start);
      NoSegnoHead(steps);
    }
  }

  lemma {:induction false} NoSegnoHead(steps: seq<Step>)
    requires steps != []
    ensures NoSegno(steps) <==> !steps[0].segno && NoSegno(steps[1..])
  {
    assert forall i :: 0 < i < |steps| ==> steps[i] == steps[1..][i - 1];
  }
}
