/** One track of music: `MML#reduce_next` turns its letters into events with lengths. */
module MusicTrack {
  import opened Options

  datatype Command = Segno | Mute | Play | Volume | EnvShape | EnvPeriod | Timbre | Pan | Mixer | Noise | Legato | Lfo

  type Setting = c: Command | c != Play && c != Mute witness Segno

  /** The second argument of a play or mute event is how long it lasts. */
  datatype Event = Event(command: Command, arg0: int, arg1: int)

  predicate Timed(c: Command) {
    c == Play || c == Mute
  }

  function Length(e: Event): int {
    if Timed(e.command) then e.arg1 else 0
  }

  /** A letter of a track with its arguments read: a note, a rest, the gate time, a command of one
      event, the envelope shape, modulation, or a letter without an event. */
  datatype Token =
    | Note(period: nat, length: nat)
    | Rest(length: nat)
    | Gate(digit: int)
    | Control(command: Setting, arg: int)
    | Shape(arg: int)
    | Modulation(depth: nat, rate: nat)
    | Silent

  /** The rest of the track is muted when it is over. */
  const LAST := Event(Mute, 1, 0)

  function Sustain(length: nat, q: int): nat
    requires 1 <= q <= 8
  {
    if q == 8 then length else length * q / 8
  }

  function Sounding(period: nat, sustain: nat): seq<Event> {
    if 0 < sustain then [Event(Play, period, sustain)] else []
  }

  function Releasing(release: int): seq<Event> {
    if 0 < release then [Event(Mute, 1, release), Event(Mute, 0, 0)] else []
  }

  /** The events of one letter, with the gate time in eighths. */
  function Pushed(t: Token, q: int): seq<Event>
    requires 1 <= q <= 8
  {
    match t
    case Note(period, length) =>
      var sustain := Sustain(length, q);
      Sounding(period, sustain) + Releasing(length - sustain)
    case Rest(length) => Releasing(length)
    case Gate(_) => []
    case Control(command, arg) => [Event(command, arg, 0)]
    case Shape(arg) => [Event(Volume, 16, 0), Event(EnvShape, arg % 16, 0)]
    case Modulation(depth, rate) => [Event(Lfo, depth * 100, rate)]
    case Silent => []
  }

  function GateAfter(t: Token, q: int): (r: int)
    ensures 1 <= q <= 8 ==> 1 <= r <= 8
  {
    if !t.Gate? then q else if t.digit < 1 || 8 < t.digit then 8 else t.digit
  }

  function Events(tokens: seq<Token>, q: int): seq<Event>
    requires 1 <= q <= 8
  {
    if tokens == [] then [] else Pushed(tokens[0], q) + Events(tokens[1..], GateAfter(tokens[0], q))
  }

  /** All events of a track. */
  function TrackEvents(tokens: seq<Token>): seq<Event> {
    Events(tokens, 8) + [LAST]
  }

  function NoteLength(t: Token): nat {
    match t
    case Note(_, length) => length
    case Rest(length) => length
    case _ => 0
  }

  /** How long the letters say the track is. */
  function Notated(tokens: seq<Token>): nat {
    if tokens == [] then 0 else Notated(tokens[..|tokens| - 1]) + NoteLength(tokens[|tokens| - 1])
  }

  /** How long a list of events lasts. */
  function Duration(events: seq<Event>): int {
    if events == [] then 0 else Length(events[0]) + Duration(events[1..])
  }

  class Parser {
    const track: seq<Token>
    var cursor: nat
    var q: int
    var eventQueue: seq<Event>
    var finished: bool
    var totalDuration: nat

    ghost predicate Valid()
      reads this
    {
      && cursor <= |track| && 1 <= q <= 8
      && totalDuration == Notated(track[..cursor]) && (finished ==> cursor == |track|)
    }

    /** The events that are still to come. */
    ghost function Remaining(): seq<Event>
      requires Valid()
      reads this
    {
      eventQueue + (if finished then [] else Events(track[cursor..], q) + [LAST])
    }

    constructor (track: seq<Token>)
      ensures Valid() && this.track == track && Remaining() == TrackEvents(track)
    {
      this.track := track;
      cursor, q, eventQueue, finished, totalDuration := 0, 8, [], false, 0;
      new;
      assert track[..0] == [] && track[0..] == track;
      assert [] + TrackEvents(track) == TrackEvents(track);
    }

    /** Push the events of a note, or of a rest if there is no tone period. */
    method PushNote(period: Option<nat>, length: nat)
      requires 1 <= q <= 8
      modifies this`eventQueue
      ensures var sustain := if period == None then 0 else Sustain(length, q);
              eventQueue == old(eventQueue)
                            + (Sounding(if period == None then 0 else period.value, sustain)
                               + Releasing(length - sustain))
    {
      ghost var queue := eventQueue;
      var sustain := if period == None then 0 else if q == 8 then length else length * q / 8;
      var release := length - sustain;
      if 0 < sustain { eventQueue := eventQueue + [Event(Play, period.value, sustain)]; }
      if 0 < release {
        eventQueue := eventQueue + [Event(Mute, 1, release)];
        eventQueue := eventQueue + [Event(Mute, 0, 0)];
      }
    }

    /** Push the events of one letter. */
    method PushLetter(t: Token) returns (timed: bool)
      requires 1 <= q <= 8
      modifies this`q, this`eventQueue
      ensures eventQueue == old(eventQueue) + Pushed(t, old(q)) && q == GateAfter(t, old(q))
      ensures timed == (t.Note? || t.Rest?)
    {
      match t {
        case Note(period, length) => PushNote(Some(period), length);
        case Rest(length) => PushNote(None, length);
        case Gate(digit) => q := if digit < 1 || 8 < digit then 8 else digit;
        case Control(command, arg) => eventQueue := eventQueue + [Event(command, arg, 0)];
        case Shape(arg) =>
          eventQueue := eventQueue + [Event(Volume, 16, 0)];
          eventQueue := eventQueue + [Event(EnvShape, arg % 16, 0)];
        case Modulation(depth, rate) => eventQueue := eventQueue + [Event(Lfo, depth * 100, rate)];
        case Silent =>
      }
      timed := t.Note? || t.Rest?;
    }

    /** Read one letter. */
    method Advance() returns (timed: bool)
      requires Valid() && !finished && cursor < |track|
      modifies this`cursor, this`q, this`eventQueue, this`totalDuration
      ensures Valid() && cursor == old(cursor) + 1 && Remaining() == old(Remaining())
    {
      hide Pushed, GateAfter;
      var t := track[cursor];
      ghost var queue, pushed, later := eventQueue, Pushed(t, q), Events(track[cursor + 1..], GateAfter(t, q));
      assert track[cursor..][1..] == track[cursor + 1..];
      assert Events(track[cursor..], q) == pushed + later;
      timed := PushLetter(t);
      if timed { totalDuration := totalDuration + NoteLength(t); }
      assert track[..cursor + 1][..cursor] == track[..cursor];
      cursor := cursor + 1;
      assert (queue + pushed) + (later + [LAST]) == queue + ((pushed + later) + [LAST]);
    }

    lemma {:induction false} NothingLeft()
      requires Valid() && cursor == |track| && !finished
      ensures Remaining() == eventQueue + [LAST]
    {
      assert [] + [LAST] == [LAST];
    }

    /** `reduce_next`: the next event of the track, until there is none. */
    method ReduceNext() returns (event: Option<Event>)
      requires Valid()
      modifies this
      ensures Valid()
      ensures old(Remaining()) == [] ==> event == None && Remaining() == []
      ensures old(Remaining()) != [] ==> event == Some(old(Remaining())[0]) && Remaining() == old(Remaining())[1..]
    {
      hide Pushed, Events, Notated;
      if eventQueue != [] {
        event, eventQueue := Some(eventQueue[0]), eventQueue[1..];
        return;
      }
      if finished { return None; }
      while true
        invariant Valid() && !finished && Remaining() == old(Remaining())
        decreases |track| - cursor
      {
        if cursor == |track| {
          NothingLeft();
          eventQueue := eventQueue + [LAST];
          finished := true;
          break;
        }
        var timed := Advance();
        if timed && eventQueue != [] { break; }
      }
      event, eventQueue := Some(eventQueue[0]), eventQueue[1..];
    }
  }

  lemma {:induction false} DurationOfBoth(a: seq<Event>, b: seq<Event>)
    ensures Duration(a + b) == Duration(a) + Duration(b)
  {
    if a == [] {
      assert a + b == b;
    } else {
      assert (a + b)[1..] == a[1..] + b;
      DurationOfBoth(a[1..], b);
    }
  }

  lemma {:induction false} NotatedFirst(tokens: seq<Token>)
    requires tokens != []
    ensures Notated(tokens) == NoteLength(tokens[0]) + Notated(tokens[1..])
  {
    if 1 < |tokens| {
      NotatedFirst(tokens[..|tokens| - 1]);
      assert tokens[..|tokens| - 1][1..] == tokens[1..][..|tokens| - 2];
    }
  }

  lemma {:induction false} ReleaseDuration(release: nat)
    ensures Duration(Releasing(release)) == release
  {
    if 0 < release {
      assert Releasing(release)[1..] == [Event(Mute, 0, 0)];
      assert [Event(Mute, 0, 0)][1..] == [];
    }
  }

  lemma {:induction false} PushedDuration(t: Token, q: int)
    requires 1 <= q <= 8
    ensures Duration(Pushed(t, q)) == NoteLength(t)
    ensures forall i :: 0 <= i < |Pushed(t, q)| ==> 0 <= Length(Pushed(t, q)[i]) <= NoteLength(t)
  {
    assert forall e: Event :: [e][1..] == [] && Duration([e]) == Length(e);
    if t.Note? || t.Rest? {
      var sustain := if t.Rest? then 0 else Sustain(t.length, q);
      ReleaseDuration(t.length - sustain);
    }
    if t.Shape? { assert Pushed(t, q)[1..] == [Event(EnvShape, t.arg % 16, 0)]; }
    if t.Note? {
      var sustain := Sustain(t.length, q);
      DurationOfBoth(Sounding(t.period, sustain), Releasing(t.length - sustain));
    }
  }

  /** Splitting notes by the gate time loses no time, whatever it is: the play and mute events of a
      track last together as long as its notes and rests, and none lasts longer than one of those. */
  lemma {:induction false} EventsDuration(tokens: seq<Token>, q: int, bound: nat)
    requires 1 <= q <= 8 && forall i :: 0 <= i < |tokens| ==> NoteLength(tokens[i]) <= bound
    ensures Duration(Events(tokens, q)) == Notated(tokens)
    ensures forall i :: 0 <= i < |Events(tokens, q)| ==> 0 <= Length(Events(tokens, q)[i]) <= bound
  {
    if tokens != [] {
      var rest := Events(tokens[1..], GateAfter(tokens[0], q));
      PushedDuration(tokens[0], q);
      EventsDuration(tokens[1..], GateAfter(tokens[0], q), bound);
      DurationOfBoth(Pushed(tokens[0], q), rest);
      NotatedFirst(tokens);
    }
  }

  /** A track's events end with a mute of no length and last as long as its notes and rests. */
  lemma {:induction false} TrackDuration(tokens: seq<Token>, bound: nat)
    requires forall i :: 0 <= i < |tokens| ==> NoteLength(tokens[i]) <= bound
    ensures TrackEvents(tokens) != [] && TrackEvents(tokens)[|TrackEvents(tokens)| - 1] == LAST
    ensures Duration(TrackEvents(tokens)) == Notated(tokens)
    ensures forall i :: 0 <= i < |TrackEvents(tokens)| ==> 0 <= Length(TrackEvents(tokens)[i]) <= bound
  {
    EventsDuration(tokens, 8, bound);
    DurationOfBoth(Events(tokens, 8), [LAST]);
  }

  /** Play for s, then silence for the rest of the length, if there is any of either. */
  predicate PlaysThenMutes(events: seq<Event>, period: nat, length: nat, s: nat) {
    && s <= length
    && events == (if 0 < s then [Event(Play, period, s)] else [])
                 + (if s < length then [Event(Mute, 1, length - s), Event(Mute, 0, 0)] else [])
  }

  /** A note sounds for the eighths of its length that the gate time gives it, rounded down, and is muted
      for what is left; a gate time that is no digit from 1 to 8 is 8, for which it sounds all the time. */
  lemma {:induction false} GateShares(gate: int, period: nat, length: nat, later: seq<Token>, q: int)
    returns (s: nat, events: seq<Event>)
    requires 1 <= q <= 8
    ensures var g := if 1 <= gate <= 8 then gate else 8;
            && 8 * s <= length * g < 8 * s + 8 && PlaysThenMutes(events, period, length, s)
            && Events([Gate(gate), Note(period, length)] + later, q) == events + Events(later, g)
  {
    hide Events, Sustain, Pushed, PlaysThenMutes;
    var g := if 1 <= gate <= 8 then gate else 8;
    s, events := Sustain(length, g), Pushed(Note(period, length), g);
    assert [Gate(gate), Note(period, length)] + later == [Gate(gate)] + ([Note(period, length)] + later);
    FirstLetter(Gate(gate), [Note(period, length)] + later, q);
    FirstLetter(Note(period, length), later, g);
    assert Pushed(Gate(gate), q) == [] by { GateIsSilent(gate, q); }
    assert [] + Events([Note(period, length)] + later, g) == Events([Note(period, length)] + later, g);
    SustainShares(length, g);
    NotePushed(period, length, g);
  }

  lemma {:induction false} GateIsSilent(gate: int, q: int)
    requires 1 <= q <= 8
    ensures Pushed(Gate(gate), q) == []
  {
  }

  lemma {:induction false} NotePushed(period: nat, length: nat, q: int)
    requires 1 <= q <= 8 && Sustain(length, q) <= length
    ensures PlaysThenMutes(Pushed(Note(period, length), q), period, length, Sustain(length, q))
  {
    hide Sustain;
  }

  lemma {:induction false} SustainShares(length: nat, q: int)
    requires 1 <= q <= 8
    ensures 8 * Sustain(length, q) <= length * q < 8 * Sustain(length, q) + 8 && Sustain(length, q) <= length
  {
    var n := length * q;
    Eighths(n);
    assert n <= 8 * length;
    if q == 8 { assert n == 8 * length; }
  }

  lemma {:induction false} Eighths(n: nat)
    ensures 8 * (n / 8) <= n < 8 * (n / 8) + 8
  {
  }

  /** A rest is silence of its length, whatever the gate time. */
  lemma {:induction false} RestIsSilent(length: nat, later: seq<Token>, q: int)
    requires 1 <= q <= 8
    ensures exists events :: PlaysThenMutes(events, 0, length, 0)
                             && Events([Rest(length)] + later, q) == events + Events(later, q)
  {
    var tokens, events := [Rest(length)] + later, Pushed(Rest(length), q);
    assert tokens[1..] == later;
    assert PlaysThenMutes(events, 0, length, 0);
  }

  /** A command takes no time and reaches the track's events with its argument; an envelope shape also
      puts the volume under the envelope's control, which is volume 16. */
  lemma {:induction false} CommandsTakeNoTime(
    c: Setting, arg: int, shape: int, depth: nat, rate: nat, later: seq<Token>, q: int)
    requires 1 <= q <= 8
    ensures Events([Control(c, arg)] + later, q) == [Event(c, arg, 0)] + Events(later, q)
    ensures Events([Shape(shape)] + later, q)
            == [Event(Volume, 16, 0), Event(EnvShape, shape % 16, 0)] + Events(later, q)
    ensures Events([Modulation(depth, rate)] + later, q) == [Event(Lfo, 100 * depth, rate)] + Events(later, q)
    ensures Events([Silent] + later, q) == Events(later, q)
  {
    hide Events;
    FirstLetter(Control(c, arg), later, q);
    FirstLetter(Shape(shape), later, q);
    FirstLetter(Modulation(depth, rate), later, q);
    FirstLetter(Silent, later, q);
    assert [] + Events(later, q) == Events(later, q);
  }

  lemma {:induction false} FirstLetter(t: Token, later: seq<Token>, q: int)
    requires 1 <= q <= 8
    ensures Events([t] + later, q) == Pushed(t, q) + Events(later, GateAfter(t, q))
  {
    hide Pushed, GateAfter;
    assert ([t] + later)[1..] == later;
  }
}
