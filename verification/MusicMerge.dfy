/** `MML.compile_multi`: up to three tracks are merged by time into one list of events, each with the
    time since the one before it. */
module MusicMerge {
  import opened MusicTrack

  const MAX_TRACKS := 3

  /** A track under way: the tick of its next event, and its events. */
  datatype Voice = Voice(tick: int, events: seq<Event>)

  datatype Item = Item(delta: int, track: nat, event: Event)

  datatype Moment = Moment(time: int, track: nat, event: Event)

  /** The first event is over. */
  function After(v: Voice): Voice
    requires v.events != []
  {
    if |v.events| == 1 then Voice(0, []) else Voice(v.tick + Length(v.events[0]), v.events[1..])
  }

  /** The first of the voices with the least tick; their number if all are over. */
  function Earliest(voices: seq<Voice>): (m: nat)
    ensures m <= |voices|
    ensures m == |voices| ==> forall i :: 0 <= i < |voices| ==> voices[i].events == []
    ensures m < |voices| ==> voices[m].events != []
    ensures forall i :: 0 <= i < |voices| && voices[i].events != [] ==> voices[m].tick <= voices[i].tick
    ensures forall i :: 0 <= i < m && voices[i].events != [] ==> voices[m].tick < voices[i].tick
  {
    if voices == [] then 0
    else
      var last := |voices| - 1;
      var m := Earliest(voices[..last]);
      if m < last then (if voices[last].events != [] && voices[last].tick < voices[m].tick then last else m)
      else if voices[last].events != [] then last
      else |voices|
  }

  function Pending(voices: seq<Voice>): nat {
    if voices == [] then 0 else Pending(voices[..|voices| - 1]) + |voices[|voices| - 1].events|
  }

  lemma {:induction false} PendingFalls(voices: seq<Voice>, m: nat)
    requires m < |voices| && voices[m].events != []
    ensures Pending(voices[m := After(voices[m])]) == Pending(voices) - 1
  {
    var last := |voices| - 1;
    var next := voices[m := After(voices[m])];
    if m == last {
      assert next[..last] == voices[..last];
    } else {
      assert next[..last] == voices[..last][m := After(voices[m])];
      PendingFalls(voices[..last], m);
    }
  }

  function Merge(voices: seq<Voice>, prev: int): (items: seq<Item>)
    decreases Pending(voices)
  {
    var m := Earliest(voices);
    if m == |voices| then []
    else
      PendingFalls(voices, m);
      [Item(voices[m].tick - prev, m, voices[m].events[0])] + Merge(voices[m := After(voices[m])], voices[m].tick)
  }

  // ---------------------------------------------------------------- what the merge means

  /** When each event happens, adding up the deltas. */
  function Timeline(items: seq<Item>, start: int): (r: seq<Moment>)
    ensures |r| == |items|
  {
    if items == [] then []
    else
      var time := start + items[0].delta;
      [Moment(time, items[0].track, items[0].event)] + Timeline(items[1..], time)
  }

  function EndTime(items: seq<Item>, start: int): int {
    if items == [] then start else EndTime(items[1..], start + items[0].delta)
  }

  /** When the events of one track happen by its own count. */
  function ScoreOf(v: Voice, track: nat): seq<Moment>
    decreases |v.events|
  {
    if v.events == [] then [] else [Moment(v.tick, track, v.events[0])] + ScoreOf(After(v), track)
  }

  /** The moments of one track. */
  function Of(moments: seq<Moment>, track: nat): seq<Moment> {
    if moments == [] then []
    else (if moments[0].track == track then [moments[0]] else []) + Of(moments[1..], track)
  }

  predicate Precedes(a: Moment, b: Moment) {
    a.time < b.time || (a.time == b.time && a.track <= b.track)
  }

  /** By time, and at the same time by track. */
  predicate InOrder(moments: seq<Moment>) {
    forall i, j :: 0 <= i < j < |moments| ==> Precedes(moments[i], moments[j])
  }

  predicate Due(voices: seq<Voice>, now: int) {
    forall i :: 0 <= i < |voices| && voices[i].events != [] ==> now <= voices[i].tick
  }

  predicate NoneNegative(v: Voice) {
    forall k :: 0 <= k < |v.events| ==> 0 <= Length(v.events[k])
  }

  predicate Lengths(voices: seq<Voice>) {
    forall i :: 0 <= i < |voices| ==> NoneNegative(voices[i])
  }

  /** The voices after the earliest event. */
  function Next(voices: seq<Voice>): (r: seq<Voice>)
    requires Earliest(voices) < |voices|
    ensures |r| == |voices|
  {
    voices[Earliest(voices) := After(voices[Earliest(voices)])]
  }

  lemma {:induction false} NextDue(voices: seq<Voice>)
    requires Lengths(voices) && Earliest(voices) < |voices|
    ensures Lengths(Next(voices)) && Due(Next(voices), voices[Earliest(voices)].tick)
    ensures Pending(Next(voices)) < Pending(voices)
  {
    PendingFalls(voices, Earliest(voices));
  }

  lemma {:induction false} MergeHead(voices: seq<Voice>, prev: int)
    requires Earliest(voices) < |voices|
    ensures var m := Earliest(voices);
            Merge(voices, prev)
            == [Item(voices[m].tick - prev, m, voices[m].events[0])] + Merge(Next(voices), voices[m].tick)
    ensures Pending(Next(voices)) < Pending(voices)
  {
    hide Earliest;
    PendingFalls(voices, Earliest(voices));
  }

  lemma {:induction false} MergeNone(voices: seq<Voice>, prev: int)
    requires Earliest(voices) == |voices|
    ensures Merge(voices, prev) == []
  {
    hide Earliest;
  }

  lemma {:induction false} TimelineHead(item: Item, items: seq<Item>, start: int)
    ensures var time := start + item.delta;
            Timeline([item] + items, start) == [Moment(time, item.track, item.event)] + Timeline(items, time)
  {
    assert ([item] + items)[1..] == items;
  }

  /** The first moment of a merge, and what follows it. */
  lemma {:induction false} MergeStep(voices: seq<Voice>, prev: int)
    requires Earliest(voices) < |voices|
    ensures var m, tick := Earliest(voices), voices[Earliest(voices)].tick;
            Timeline(Merge(voices, prev), prev)
            == [Moment(tick, m, voices[m].events[0])] + Timeline(Merge(Next(voices), tick), tick)
    ensures Pending(Next(voices)) < Pending(voices)
  {
    hide Earliest, Merge, Pending, Timeline;
    MergeHead(voices, prev);
    var m := Earliest(voices);
    TimelineHead(Item(voices[m].tick - prev, m, voices[m].events[0]), Merge(Next(voices), voices[m].tick), prev);
  }

  lemma {:induction false} OfHead(a: Moment, moments: seq<Moment>, track: nat)
    ensures Of([a] + moments, track) == (if a.track == track then [a] else []) + Of(moments, track)
  {
    assert ([a] + moments)[1..] == moments;
  }

  /** Each track's part of the merged timeline is its own score, event by event at its own ticks. */
  lemma {:induction false} MergeKeepsScores(voices: seq<Voice>, prev: int, t: nat)
    requires t < |voices|
    ensures Of(Timeline(Merge(voices, prev), prev), t) == ScoreOf(voices[t], t)
    decreases Pending(voices)
  {
    var m := Earliest(voices);
    if m < |voices| {
      hide Earliest, Timeline, Pending, Of;
      MergeStep(voices, prev);
      MergeKeepsScores(Next(voices), voices[m].tick, t);
      OfHead(Moment(voices[m].tick, m, voices[m].events[0]),
             Timeline(Merge(Next(voices), voices[m].tick), voices[m].tick), t);
      assert t != m ==> Next(voices)[t] == voices[t];
    } else {
      assert Merge(voices, prev) == [] && voices[t].events == [];
    }
  }

  /** The merged timeline is in order, with no negative delta. */
  lemma {:induction false} MergeIsInOrder(voices: seq<Voice>, prev: int)
    requires Lengths(voices) && Due(voices, prev)
    ensures InOrder(Timeline(Merge(voices, prev), prev))
    ensures forall i :: 0 <= i < |Merge(voices, prev)| ==> 0 <= Merge(voices, prev)[i].delta
    ensures forall i :: 0 <= i < |Merge(voices, prev)| ==> Merge(voices, prev)[i].track < |voices|
    decreases Pending(voices)
  {
    hide Earliest, Merge, Timeline, Pending, Lengths, Due, InOrder, Precedes, Next;
    var m := Earliest(voices);
    MergeStart(voices, prev);
    if m < |voices| {
      NextDue(voices);
      var time := voices[m].tick;
      IsDue(voices, prev);
      MergeIsInOrder(Next(voices), time);
      MergeHead(voices, prev);
      MergeStep(voices, prev);
      FirstPrecedes(voices);
      ConsInOrder(Moment(time, m, voices[m].events[0]), Timeline(Merge(Next(voices), time), time));
    } else {
      MergeNone(voices, prev);
      NothingInOrder();
    }
  }

  lemma {:induction false} NothingInOrder()
    ensures InOrder([])
  {
  }

  lemma {:induction false} IsDue(voices: seq<Voice>, now: int)
    requires Due(voices, now) && Earliest(voices) < |voices|
    ensures now <= voices[Earliest(voices)].tick
  {
  }

  lemma {:induction false} FirstPrecedes(voices: seq<Voice>)
    requires Lengths(voices) && Earliest(voices) < |voices|
    ensures var m, time := Earliest(voices), voices[Earliest(voices)].tick;
            var rest := Timeline(Merge(Next(voices), time), time);
            rest != [] ==> Precedes(Moment(time, m, voices[m].events[0]), rest[0])
  {
    hide Earliest, Merge, Timeline, Lengths, Next;
    MergeStart(Next(voices), voices[Earliest(voices)].tick);
    if Earliest(Next(voices)) < |voices| { NextIsLater(voices); }
  }

  lemma {:induction false} ConsInOrder(first: Moment, rest: seq<Moment>)
    requires InOrder(rest) && (rest != [] ==> Precedes(first, rest[0]))
    ensures InOrder([first] + rest)
  {
    var line := [first] + rest;
    forall i, j | 0 <= i < j < |line| ensures Precedes(line[i], line[j]) {
      if i == 0 {
        if 1 < j { assert Precedes(rest[0], rest[j - 1]); }
      } else {
        assert Precedes(rest[i - 1], rest[j - 1]);
      }
    }
  }

  lemma {:induction false} MergeStart(voices: seq<Voice>, prev: int)
    ensures Earliest(voices) == |voices| ==> Timeline(Merge(voices, prev), prev) == []
    ensures Earliest(voices) < |voices| ==>
      var m, line := Earliest(voices), Timeline(Merge(voices, prev), prev);
      line != [] && line[0] == Moment(voices[m].tick, m, voices[m].events[0])
  {
    hide Earliest, Timeline, Pending, Next;
    if Earliest(voices) < |voices| {
      MergeStep(voices, prev);
    } else {
      MergeNone(voices, prev);
    }
  }

  lemma {:induction false} NextIsLater(voices: seq<Voice>)
    requires Lengths(voices) && Earliest(voices) < |voices| && Earliest(Next(voices)) < |voices|
    ensures var m, n := Earliest(voices), Earliest(Next(voices));
            voices[m].tick < Next(voices)[n].tick || (voices[m].tick == Next(voices)[n].tick && m <= n)
  {
    NextDue(voices);
    var m, n := Earliest(voices), Earliest(Next(voices));
    assert n != m ==> Next(voices)[n] == voices[n];
  }

  /** There is no other timeline in order with these scores. */
  lemma {:induction false} MergeIsTheOnlyOne(voices: seq<Voice>, prev: int, line: seq<Moment>)
    requires Lengths(voices) && Due(voices, prev) && InOrder(line)
    requires forall i :: 0 <= i < |line| ==> line[i].track < |voices|
    requires forall t :: 0 <= t < |voices| ==> Of(line, t) == ScoreOf(voices[t], t)
    ensures line == Timeline(Merge(voices, prev), prev)
    decreases Pending(voices)
  {
    hide *;
    var m := Earliest(voices);
    MergeStart(voices, prev);
    if m == |voices| {
      NothingIsDue(voices, line);
    } else {
      EarliestIsFirst(voices, line);
      NextDue(voices);
      var tail := line[1..];
      forall t | 0 <= t < |voices| ensures Of(tail, t) == ScoreOf(Next(voices)[t], t) {
        TailOf(voices, line, t);
      }
      assert forall i :: 0 <= i < |tail| ==> tail[i] == line[i + 1];
      TailInOrder(line);
      MergeIsTheOnlyOne(Next(voices), voices[m].tick, tail);
      MergeStep(voices, prev);
      assert line == [line[0]] + tail;
    }
  }

  lemma {:induction false} OfNonEmpty(line: seq<Moment>)
    ensures line != [] ==> Of(line, line[0].track) != []
  {
  }

  lemma {:induction false} NothingIsDue(voices: seq<Voice>, line: seq<Moment>)
    requires Earliest(voices) == |voices|
    requires forall i :: 0 <= i < |line| ==> line[i].track < |voices|
    requires forall t :: 0 <= t < |voices| ==> Of(line, t) == ScoreOf(voices[t], t)
    ensures line == []
  {
    OfNonEmpty(line);
  }

  lemma {:induction false} TailOf(voices: seq<Voice>, line: seq<Moment>, t: nat)
    requires Earliest(voices) < |voices| && t < |voices| && line != [] && Of(line, t) == ScoreOf(voices[t], t)
    requires line[0] == Moment(voices[Earliest(voices)].tick, Earliest(voices), voices[Earliest(voices)].events[0])
    ensures Of(line[1..], t) == ScoreOf(Next(voices)[t], t)
  {
    hide Earliest, Of, ScoreOf;
    assert line == [line[0]] + line[1..];
    OfHead(line[0], line[1..], t);
    if t == Earliest(voices) {
      ScoreStep(voices[t], t);
      assert ([line[0]] + Of(line[1..], t))[1..] == Of(line[1..], t);
      assert ([line[0]] + ScoreOf(After(voices[t]), t))[1..] == ScoreOf(After(voices[t]), t);
    } else {
      assert [] + Of(line[1..], t) == Of(line[1..], t);
    }
  }

  lemma {:induction false} ScoreStep(v: Voice, t: nat)
    ensures v.events != [] ==> ScoreOf(v, t) == [Moment(v.tick, t, v.events[0])] + ScoreOf(After(v), t)
    ensures v.events == [] ==> ScoreOf(v, t) == []
  {
  }

  lemma {:induction false} TailInOrder(line: seq<Moment>)
    requires line != [] && InOrder(line)
    ensures InOrder(line[1..])
  {
    var tail := line[1..];
    forall i, j | 0 <= i < j < |tail| ensures Precedes(tail[i], tail[j]) {
      assert tail[i] == line[i + 1] && tail[j] == line[j + 1];
    }
  }

  /** A moment that occurs in a part occurs in the whole. */
  lemma {:induction false} OfOccurs(line: seq<Moment>, t: nat) returns (at: nat)
    requires Of(line, t) != []
    ensures at < |line| && line[at] == Of(line, t)[0]
  {
    if line[0].track == t {
      at := 0;
    } else {
      at := OfOccurs(line[1..], t);
      at := at + 1;
    }
  }

  lemma {:induction false} EarliestIsFirst(voices: seq<Voice>, line: seq<Moment>)
    requires Lengths(voices) && Earliest(voices) < |voices| && InOrder(line)
    requires forall i :: 0 <= i < |line| ==> line[i].track < |voices|
    requires forall t :: 0 <= t < |voices| ==> Of(line, t) == ScoreOf(voices[t], t)
    ensures var m := Earliest(voices);
            line != [] && line[0] == Moment(voices[m].tick, m, voices[m].events[0])
  {
    var m := Earliest(voices);
    assert Of(line, m) == ScoreOf(voices[m], m);
    var at := OfOccurs(line, m);
    var t := line[0].track;
    assert Of(line, t)[0] == line[0];
    assert Of(line, t) == ScoreOf(voices[t], t);
    assert line[0] == Moment(voices[t].tick, t, voices[t].events[0]);
    if at != 0 { assert Precedes(line[0], line[at]); }
  }

  /** The last event has no length. */
  predicate Ends(v: Voice) {
    v.events != [] ==> Length(v.events[|v.events| - 1]) == 0
  }

  /** When a track is over. */
  function Over(v: Voice): int {
    v.tick + Duration(v.events)
  }

  predicate Longest(voices: seq<Voice>, end: int) {
    && (exists t :: 0 <= t < |voices| && voices[t].events != [] && end == Over(voices[t]))
    && (forall t :: 0 <= t < |voices| && voices[t].events != [] ==> Over(voices[t]) <= end)
  }

  lemma {:induction false} DurationNonNegative(v: Voice)
    requires NoneNegative(v)
    ensures 0 <= Duration(v.events)
    decreases |v.events|
  {
    if v.events != [] { DurationNonNegative(Voice(0, v.events[1..])); }
  }

  /** The returned time is that of the longest track. */
  lemma {:induction false} EndIsLongest(voices: seq<Voice>, prev: int)
    requires Lengths(voices) && (forall t :: 0 <= t < |voices| ==> Ends(voices[t]))
    ensures Earliest(voices) < |voices| ==> Longest(voices, EndTime(Merge(voices, prev), prev))
    ensures Earliest(voices) == |voices| ==> EndTime(Merge(voices, prev), prev) == prev
    decreases Pending(voices)
  {
    hide *;
    if Earliest(voices) < |voices| {
      var m, next := Earliest(voices), Next(voices);
      var time := voices[m].tick;
      NextDue(voices);
      NextEnds(voices);
      EndIsLongest(next, time);
      MergeHead(voices, prev);
      EndStep(Item(time - prev, m, voices[m].events[0]), Merge(next, time), prev);
      AfterIsOver(voices[m]);
      NoneIsOver(voices);
      LongestStep(voices, EndTime(Merge(voices, prev), prev));
    } else {
      MergeNone(voices, prev);
      EndNone(prev);
    }
  }

  lemma {:induction false} EndNone(start: int)
    ensures EndTime([], start) == start
  {
  }

  lemma {:induction false} NextEnds(voices: seq<Voice>)
    requires Earliest(voices) < |voices| && forall t :: 0 <= t < |voices| ==> Ends(voices[t])
    ensures forall t :: 0 <= t < |voices| ==> Ends(Next(voices)[t])
  {
    hide Earliest;
    AfterIsOver(voices[Earliest(voices)]);
    assert forall t :: 0 <= t < |voices| && t != Earliest(voices) ==> Next(voices)[t] == voices[t];
  }

  lemma {:induction false} NoneIsOver(voices: seq<Voice>)
    requires Lengths(voices) && Earliest(voices) < |voices|
    ensures forall t :: 0 <= t < |voices| && voices[t].events != [] ==> voices[Earliest(voices)].tick <= Over(voices[t])
  {
    hide NoneNegative;
    forall t | 0 <= t < |voices| && voices[t].events != []
      ensures voices[t].tick <= Over(voices[t])
    {
      DurationNonNegative(voices[t]);
    }
  }

  lemma {:induction false} EndStep(item: Item, items: seq<Item>, start: int)
    ensures EndTime([item] + items, start) == EndTime(items, start + item.delta)
  {
    assert ([item] + items)[1..] == items;
  }

  lemma {:induction false} AfterIsOver(v: Voice)
    requires v.events != [] && Ends(v)
    ensures if |v.events| == 1 then Over(v) == v.tick else Over(After(v)) == Over(v)
    ensures Ends(After(v))
  {
    if |v.events| == 1 {
      assert v.events[1..] == [];
      assert Duration(v.events) == Length(v.events[0]) + Duration([]);
    }
  }

  lemma {:induction false} LongestStep(voices: seq<Voice>, end: int)
    requires Earliest(voices) < |voices|
    requires var m := Earliest(voices);
             if |voices[m].events| == 1 then Over(voices[m]) == voices[m].tick
             else Over(After(voices[m])) == Over(voices[m])
    requires forall t :: 0 <= t < |voices| && voices[t].events != [] ==>
               voices[Earliest(voices)].tick <= Over(voices[t])
    requires if Earliest(Next(voices)) < |voices| then Longest(Next(voices), end)
             else end == voices[Earliest(voices)].tick
    ensures Longest(voices, end)
  {
    hide Over, Earliest;
    var m, next := Earliest(voices), Next(voices);
    assert forall t :: 0 <= t < |voices| && t != m ==> next[t] == voices[t];
    if Earliest(next) < |next| {
      var w :| 0 <= w < |next| && next[w].events != [] && end == Over(next[w]);
      assert voices[w].events != [] && Over(voices[w]) == Over(next[w]);
      assert voices[m].tick <= end;
      forall t | 0 <= t < |voices| && voices[t].events != []
        ensures Over(voices[t]) <= end
      {
        if t != m || 1 < |voices[m].events| { assert next[t].events != [] && Over(next[t]) <= end; }
      }
    } else {
      AllOver(next);
      assert next[m].events == [] && |voices[m].events| == 1;
      assert forall t :: 0 <= t < |voices| && t != m ==> voices[t].events == [];
    }
  }

  lemma {:induction false} AllOver(voices: seq<Voice>)
    requires Earliest(voices) >= |voices|
    ensures forall t :: 0 <= t < |voices| ==> voices[t].events == []
  {
  }

  /** No wait is longer than some event, provided the first events are not late. */
  lemma {:induction false} DeltasAreBounded(voices: seq<Voice>, prev: int, bound: int)
    requires forall t :: 0 <= t < |voices| && voices[t].events != [] ==> voices[t].tick - prev <= bound
    requires forall t, k :: 0 <= t < |voices| && 0 <= k < |voices[t].events| ==>
               0 <= Length(voices[t].events[k]) <= bound
    requires Due(voices, prev)
    ensures forall i :: 0 <= i < |Merge(voices, prev)| ==> Merge(voices, prev)[i].delta <= bound
    decreases Pending(voices)
  {
    var m := Earliest(voices);
    if m < |voices| {
      hide Earliest, Merge, Pending;
      NextDue(voices);
      DeltasAreBounded(Next(voices), voices[m].tick, bound);
      MergeHead(voices, prev);
    }
  }

  // ---------------------------------------------------------------- the compiler

  function Voices(tracks: seq<seq<Token>>): (voices: seq<Voice>)
    ensures |voices| == |tracks| && forall t :: 0 <= t < |tracks| ==> voices[t] == Voice(0, TrackEvents(tracks[t]))
  {
    seq(|tracks|, t requires 0 <= t < |tracks| => Voice(0, TrackEvents(tracks[t])))
  }

  /** The k-th event of a track happens once all events before it are over. */
  lemma {:induction false} ScoreTicks(v: Voice, track: nat, k: nat)
    requires k < |v.events|
    ensures |ScoreOf(v, track)| == |v.events|
    ensures ScoreOf(v, track)[k] == Moment(v.tick + Duration(v.events[..k]), track, v.events[k])
    decreases k
  {
    ScoreLength(v, track);
    if k > 0 {
      ScoreTicks(After(v), track, k - 1);
      assert v.events[..k][1..] == v.events[1..][..k - 1];
    }
  }

  lemma {:induction false} ScoreLength(v: Voice, track: nat)
    ensures |ScoreOf(v, track)| == |v.events|
    decreases |v.events|
  {
    if v.events != [] { ScoreLength(After(v), track); }
  }

  predicate NotesWithin(tracks: seq<seq<Token>>, bound: nat) {
    forall t, k :: 0 <= t < |tracks| && 0 <= k < |tracks[t]| ==> NoteLength(tracks[t][k]) <= bound
  }

  /** What `compile_multi` promises: no negative delta and none beyond the longest note, every track's
      events in its own order at its own ticks, all of them in order of time, and the time of the
      longest track returned. */
  lemma {:induction false} CompiledTracks(tracks: seq<seq<Token>>, bound: nat)
    requires tracks != [] && NotesWithin(tracks, bound)
    ensures var items := Merge(Voices(tracks), 0);
            && InOrder(Timeline(items, 0))
            && (forall i :: 0 <= i < |items| ==> 0 <= items[i].delta <= bound && items[i].track < |tracks|)
            && (forall t :: 0 <= t < |tracks| ==>
                  Of(Timeline(items, 0), t) == ScoreOf(Voice(0, TrackEvents(tracks[t])), t))
            && (exists t :: 0 <= t < |tracks| && EndTime(items, 0) == Notated(tracks[t]))
            && (forall t :: 0 <= t < |tracks| ==> Notated(tracks[t]) <= EndTime(items, 0))
  {
    hide Merge, Timeline, EndTime, Notated, TrackEvents, Of, ScoreOf, InOrder, Earliest, NoteLength, Duration;
    var voices := Voices(tracks);
    forall t | 0 <= t < |tracks|
      ensures voices[t].events != [] && NoneNegative(voices[t]) && Ends(voices[t])
      ensures Over(voices[t]) == Notated(tracks[t])
      ensures forall k :: 0 <= k < |voices[t].events| ==> 0 <= Length(voices[t].events[k]) <= bound
    {
      TrackDuration(tracks[t], bound);
    }
    forall t | 0 <= t < |tracks|
      ensures Of(Timeline(Merge(voices, 0), 0), t) == ScoreOf(Voice(0, TrackEvents(tracks[t])), t)
    {
      MergeKeepsScores(voices, 0, t);
    }
    hide NoneNegative, Ends, Over;
    MergeIsInOrder(voices, 0);
    DeltasAreBounded(voices, 0, bound);
    SomeIsDue(voices);
    EndIsLongest(voices, 0);
  }

  lemma {:induction false} SomeIsDue(voices: seq<Voice>)
    requires voices != [] && voices[0].events != []
    ensures Earliest(voices) < |voices|
  {
  }

  datatype Compiled = Raised | Done(items: seq<Item>, time: int)

  /** The parsers, the tick and the first event of each track that is not over. */
  ghost predicate Tables(parsers: seq<Parser>, ticks: map<nat, int>, events: map<nat, Event>, voices: seq<Voice>)
    reads parsers
  {
    && |parsers| == |voices| && ticks.Keys == events.Keys
    && (forall t :: t in events ==> t < |voices|)
    && (forall i, j :: 0 <= i < j < |parsers| ==> parsers[i] != parsers[j])
    && (forall t :: 0 <= t < |voices| ==> TableRow(parsers[t], t, ticks, events, voices[t]))
  }

  ghost predicate TableRow(parser: Parser, t: nat, ticks: map<nat, int>, events: map<nat, Event>, v: Voice)
    requires ticks.Keys == events.Keys
    reads parser
  {
    && parser.Valid() && (t in events <==> v.events != [])
    && (t in events ==> ticks[t] == v.tick && v.events == [events[t]] + parser.Remaining())
  }

  /** The scan for the track with the least tick. */
  method MinTrack(ticks: map<nat, int>, events: map<nat, Event>, ghost voices: seq<Voice>, n: nat) returns (m: nat)
    requires n == |voices| && ticks.Keys == events.Keys
    requires forall t :: 0 <= t < n ==> (t in events <==> voices[t].events != [])
    requires forall t :: 0 <= t < n && t in events ==> ticks[t] == voices[t].tick
    ensures m == Earliest(voices)
  {
    var found := false;
    m := 0;
    for t := 0 to n
      invariant found <==> Earliest(voices[..t]) < t
      invariant found ==> m == Earliest(voices[..t]) && m in events
    {
      assert voices[..t + 1][..t] == voices[..t];
      if t in events && (!found || ticks[t] < ticks[m]) { found, m := true, t; }
    }
    assert voices[..n] == voices;
    if !found { m := n; }
  }

  lemma {:induction false} EndTimeAfter(items: seq<Item>, item: Item, start: int)
    ensures EndTime(items + [item], start) == EndTime(items, start) + item.delta
  {
    if items != [] {
      assert (items + [item])[1..] == items[1..] + [item];
      EndTimeAfter(items[1..], item, start + items[0].delta);
    }
  }

  /** A parser for one more track. */
  method AddTrack(parsers: seq<Parser>, ticks: map<nat, int>, events: map<nat, Event>, track: seq<Token>,
                  ghost voices: seq<Voice>)
    returns (parser: Parser, newTicks: map<nat, int>, newEvents: map<nat, Event>)
    requires Tables(parsers, ticks, events, voices)
    ensures fresh(parser)
    ensures Tables(parsers + [parser], newTicks, newEvents, voices + [Voice(0, TrackEvents(track))])
  {
    hide TrackEvents, Parser.Remaining, Parser.Valid;
    parser := new Parser(track);
    var event := parser.ReduceNext();
    TrackNotEmpty(track);
    newTicks, newEvents := ticks[|parsers| := 0], events[|parsers| := event.value];
    forall t | 0 <= t < |voices| ensures TableRow(parsers[t], t, newTicks, newEvents, voices[t]) {
      assert TableRow(parsers[t], t, ticks, events, voices[t]);
    }
  }

  /** A parser for each track, with the track's first event. */
  method StartTracks(tracks: seq<seq<Token>>)
    returns (parsers: seq<Parser>, ticks: map<nat, int>, events: map<nat, Event>)
    ensures fresh(parsers) && |parsers| == |tracks| && Tables(parsers, ticks, events, Voices(tracks))
  {
    hide TrackEvents, TableRow;
    parsers, ticks, events := [], map[], map[];
    for t := 0 to |tracks|
      invariant |parsers| == t && fresh(parsers) && Tables(parsers, ticks, events, Voices(tracks[..t]))
    {
      var parser;
      parser, ticks, events := AddTrack(parsers, ticks, events, tracks[t], Voices(tracks[..t]));
      parsers := parsers + [parser];
      assert Voices(tracks[..t + 1]) == Voices(tracks[..t]) + [Voice(0, TrackEvents(tracks[t]))];
    }
    assert tracks[..|tracks|] == tracks;
  }

  /** The event of track m is taken: its next one comes after its length, or the track is deleted. */
  method TakeNext(parsers: seq<Parser>, ticks: map<nat, int>, events: map<nat, Event>, m: nat, ghost voices: seq<Voice>)
    returns (newTicks: map<nat, int>, newEvents: map<nat, Event>)
    requires Tables(parsers, ticks, events, voices) && m == Earliest(voices) < |voices|
    modifies parsers[m]
    ensures Tables(parsers, newTicks, newEvents, Next(voices))
  {
    hide Earliest, Parser.Remaining, Parser.Valid;
    var event := events[m];
    assert TableRow(parsers[m], m, ticks, events, voices[m]);
    var next := parsers[m].ReduceNext();
    if next.Some? {
      newTicks := ticks[m := ticks[m] + if event.command == Play || event.command == Mute then event.arg1 else 0];
      newEvents := events[m := next.value];
    } else {
      newTicks, newEvents := ticks - {m}, events - {m};
    }
    assert voices[m].events[1..] == old(parsers[m].Remaining());
    forall t | 0 <= t < |voices| ensures TableRow(parsers[t], t, newTicks, newEvents, Next(voices)[t]) {
      assert TableRow(parsers[t], t, ticks, events, voices[t]) || t == m;
    }
  }

  method CompileMulti(tracks: seq<seq<Token>>) returns (r: Compiled)
    ensures r.Raised? <==> tracks == [] || MAX_TRACKS < |tracks|
    ensures r.Done? ==> r.items == Merge(Voices(tracks), 0) && r.time == EndTime(r.items, 0)
  {
    hide Merge, Earliest, Pending, EndTime, Tables;
    if tracks == [] || MAX_TRACKS < |tracks| { return Raised; }
    var parsers, ticks, events := StartTracks(tracks);
    ghost var voices := Voices(tracks);
    var prev, items := 0, [];
    EndNone(0);
    while true
      invariant fresh(parsers) && |parsers| == |voices| == |tracks| && Tables(parsers, ticks, events, voices)
      invariant Merge(Voices(tracks), 0) == items + Merge(voices, prev) && EndTime(items, 0) == prev
      decreases Pending(voices)
    {
      TablesMatch(parsers, ticks, events, voices);
      var m := MinTrack(ticks, events, voices, |tracks|);
      if m == |tracks| {
        MergeNone(voices, prev);
        break;
      }
      MergeHead(voices, prev);
      var item := Item(ticks[m] - prev, m, events[m]);
      EndTimeAfter(items, item, 0);
      items, prev := items + [item], ticks[m];
      ticks, events := TakeNext(parsers, ticks, events, m, voices);
      voices := Next(voices);
    }
    return Done(items, prev);
  }

  /** What the tables say of the voices. */
  lemma {:induction false} TablesMatch(parsers: seq<Parser>, ticks: map<nat, int>, events: map<nat, Event>,
                                       voices: seq<Voice>)
    requires Tables(parsers, ticks, events, voices)
    ensures ticks.Keys == events.Keys && forall t :: 0 <= t < |voices| ==> (t in events <==> voices[t].events != [])
    ensures forall t :: 0 <= t < |voices| && t in events ==>
      ticks[t] == voices[t].tick && voices[t].events != [] && voices[t].events[0] == events[t]
  {
    forall t | 0 <= t < |voices| ensures TableRow(parsers[t], t, ticks, events, voices[t]) {
    }
  }

  lemma {:induction false} TrackNotEmpty(track: seq<Token>)
    ensures TrackEvents(track) != []
  {
  }
}
