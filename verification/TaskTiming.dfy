/** The cached next-wakeup gate loses no sleeper, and sleepers wake at exactly their tick, across
    wrap-around of the 32-bit clock. */
module TaskTiming {
  import opened Options
  import opened Ticks
  import opened TaskModel
  import opened TaskQueueInvariant
  import opened TaskEffects

  /** Ticks from now to x; negative when x has passed. */
  function Away<T>(s: State<T>, x: int): int {
    Signed(x - s.tick)
  }

  predicate Sleeper<T>(s: State<T>, t: T) {
    t in s.tasks && s.tasks[t].status == Waiting && s.tasks[t].reason == Sleeping
  }

  /** The gate is at or before the deadline of every waiting sleeper. */
  ghost predicate GateOk<T>(s: State<T>) {
    && -BOUND <= Away(s, s.gate) <= MAX_GATE
    && forall t :: t in s.tasks && Sleeper(s, t) ==>
      -BOUND <= Away(s, s.tasks[t].wakeup) < BOUND && Away(s, s.gate) <= Away(s, s.tasks[t].wakeup)
  }

  /** Sleeps are shorter than the bound, and a sleeper is resumed within the bound of its deadline. */
  predicate Timely<T>(s: State<T>, step: Step<T>)
    requires Legal(s, step)
  {
    match step
    case SleepStep(ms) => -BOUND <= TicksFor(ms) < BOUND
    case ResumeStep(t) => s.tasks[t].reason == Sleeping ==> -BOUND <= Away(s, s.tasks[t].wakeup) < BOUND
    case _ => true
  }

  // ---------------------------------------------------------------- the scan

  predicate Settled<T>(s: State<T>, t: T)
    requires t in s.tasks
  {
    0 <= Away(s, s.tasks[t].wakeup) && Away(s, s.gate) <= Away(s, s.tasks[t].wakeup)
  }

  /** Sleepers not in the pending queue have been passed over by the scan. */
  ghost predicate Covered<T>(s: State<T>, pending: seq<T>) {
    && 0 <= Away(s, s.gate) <= MAX_GATE
    && forall t :: t in s.tasks && Sleeper(s, t) ==>
      Away(s, s.tasks[t].wakeup) < BOUND && (t in pending || Settled(s, t))
  }

  lemma {:induction false} CoverWake<T>(s: State<T>, pending: seq<T>)
    requires Covered(s, pending) && pending != [] && pending[0] in s.tasks
    ensures Covered(WakeUp(s, pending[0]), pending[1..])
  {
    hide Signed, Move;
    var t := pending[0];
    assert forall u :: u in pending ==> u == t || u in pending[1..];
    MoveEffect(s, t, s.tasks[t].(status := Ready, reason := NoReason));
  }

  lemma {:induction false} CoverLower<T>(s: State<T>, pending: seq<T>)
    requires Covered(s, pending) && pending != [] && pending[0] in s.tasks
    requires !Before(s.tasks[pending[0]].wakeup, s.tick)
    requires Sleeper(s, pending[0])
    ensures Covered(LowerGate(s, s.tasks[pending[0]].wakeup), pending[1..])
  {
    hide Signed;
    var t := pending[0];
    assert forall u :: u in pending ==> u == t || u in pending[1..];
    SignedDifference(s.tasks[t].wakeup, s.gate, s.tick);
  }

  lemma {:induction false} CoverSkip<T>(s: State<T>, pending: seq<T>)
    requires Covered(s, pending) && pending != [] && !Sleeper(s, pending[0])
    ensures Covered(s, pending[1..])
  {
    hide Signed;
    assert forall u :: u in pending ==> u == pending[0] || u in pending[1..];
  }

  /** The scan leaves the gate at or before every sleeper that it has passed over. */
  lemma {:induction false} ScanSettles<T>(s: State<T>, pending: seq<T>, woke: bool)
    requires Covered(s, pending)
    requires forall t :: t in pending ==> t in s.tasks && (s.tasks[t].reason == Sleeping ==> Sleeper(s, t))
    requires NoDuplicates(pending)
    ensures Covered(Scan(s, pending, woke).0, [])
    decreases |pending|
  {
    hide Covered, Before, Move;
    if pending != [] {
      var t, rest := pending[0], pending[1..];
      assert forall u :: u in rest ==> u in pending && u != t;
      if s.tasks[t].reason != Sleeping {
        CoverSkip(s, pending);
        ScanSettles(s, rest, woke);
      } else if Before(s.tasks[t].wakeup, s.tick) {
        CoverWake(s, pending);
        MoveEffect(s, t, s.tasks[t].(status := Ready, reason := NoReason));
        ScanSettles(WakeUp(s, t), rest, true);
      } else {
        CoverLower(s, pending);
        ScanSettles(LowerGate(s, s.tasks[t].wakeup), rest, woke);
      }
    }
  }

  /** A scan in which nobody is due changes nothing but the gate. */
  lemma {:induction false} ScanIdle<T>(s: State<T>, pending: seq<T>)
    requires forall t :: t in pending ==> !Due(s, t)
    ensures var (s', woke) := Scan(s, pending, false); s' == s.(gate := s'.gate) && !woke
    decreases |pending|
  {
    if pending != [] {
      var t, rest := pending[0], pending[1..];
      assert !Due(s, t);
      if t in s.tasks && s.tasks[t].reason == Sleeping && Before(s.tasks[t].wakeup, s.gate) {
        var s1 := s.(gate := s.tasks[t].wakeup);
        forall u | u in rest ensures !Due(s1, u) { assert u in pending && !Due(s, u); }
        ScanIdle(s1, rest);
      } else {
        ScanIdle(s, rest);
      }
    }
  }

  // ---------------------------------------------------------------- the tick

  /** Before the scan decision of a tick, every deadline is one tick nearer. */
  lemma {:induction false} AdvanceGate<T>(s: State<T>)
    requires GateOk(s)
    ensures var a := Advance(s);
            && Away(a, a.gate) == Away(s, s.gate) - 1
            && a.tasks.Keys == s.tasks.Keys
            && forall t :: t in a.tasks && Sleeper(a, t) ==>
              Sleeper(s, t) && Away(a, a.tasks[t].wakeup) == Away(s, s.tasks[t].wakeup) - 1
  {
    hide Signed, Plus;
    SignedAdvance(s.gate, s.tick);
    var a := Advance(s);
    assert a.tasks.Keys == s.tasks.Keys && a.gate == s.gate && a.tick == Plus(s.tick, 1);
    forall t | t in a.tasks && Sleeper(a, t)
      ensures Sleeper(s, t) && Away(a, a.tasks[t].wakeup) == Away(s, s.tasks[t].wakeup) - 1
    {
      AdvanceEffect(s);
      SignedAdvance(s.tasks[t].wakeup, s.tick);
    }
  }

  /** What one tick does to a control block, the time slice aside: sleepers whose deadline is not
      ahead become READY, and nothing else happens. */
  function AfterTick<T>(s: State<T>, t: T): Task<T>
    requires t in s.tasks
  {
    if Sleeper(s, t) && Away(s, s.tasks[t].wakeup) <= 0 then
      s.tasks[t].(status := Ready, reason := NoReason, timeslice := 0)
    else s.tasks[t].(timeslice := 0)
  }

  lemma {:induction false} ReadyToScan<T>(a: State<T>)
    requires Inv(a)
    ensures forall t :: t in a.queues[WAITING] ==> t in a.tasks && a.tasks[t].status == Waiting
    ensures forall t :: t in a.tasks && Sleeper(a, t) ==> t in a.queues[WAITING]
    ensures NoDuplicates(a.queues[WAITING])
  {
    hide Sorted, NoDuplicates;
    forall t | t in a.tasks && Sleeper(a, t) ensures t in a.queues[WAITING] { QueueIsStatus(a, t, WAITING); }
  }

  lemma {:induction false} FreshGate<T>(a: State<T>)
    requires Inv(a)
    requires forall t :: t in a.tasks && Sleeper(a, t) ==> Away(a, a.tasks[t].wakeup) < BOUND
    ensures Covered(a.(gate := Plus(a.tick, MAX_GATE)), a.queues[WAITING])
  {
    hide Inv, Signed;
    ReadyToScan(a);
    SignedAhead(a.tick, MAX_GATE);
  }

  /** The scan after an advance restores the gate invariant. */
  lemma {:induction false} WakeSleepersGate<T>(s: State<T>)
    requires Inv(s) && GateOk(s)
    ensures GateOk(WakeSleepers(Advance(s)))
  {
    hide Inv, Signed, Scan, Move, Advance;
    AdvanceKeeps(s);
    AdvanceGate(s);
    var a := Advance(s);
    ReadyToScan(a);
    FreshGate(a);
    ScanSettles(a.(gate := Plus(a.tick, MAX_GATE)), a.queues[WAITING], false);
  }

  /** The scan after an advance finds exactly those sleepers due whose deadline is not ahead any more. */
  lemma {:induction false} DueExactly<T>(s: State<T>, t: T)
    requires Inv(s) && GateOk(s) && t in s.tasks
    ensures var a := Advance(s);
            && t in a.tasks
            && (t in a.queues[WAITING] && Due(a.(gate := Plus(a.tick, MAX_GATE)), t)
                <==> Sleeper(s, t) && Away(s, s.tasks[t].wakeup) <= 0)
  {
    hide Inv, Signed, Move, Advance;
    AdvanceKeeps(s);
    AdvanceEffect(s);
    if Sleeper(s, t) { SignedAdvance(s.tasks[t].wakeup, s.tick); }
    ReadyToScan(Advance(s));
  }

  /** The scan after an advance does to every task what the clock demands. */
  lemma {:induction false} WakeSleepersExact<T>(s: State<T>, t: T)
    requires Inv(s) && GateOk(s) && t in s.tasks
    ensures var s' := WakeSleepers(Advance(s));
            s'.tasks.Keys == s.tasks.Keys && s'.tasks[t].(timeslice := 0) == AfterTick(s, t)
  {
    hide Inv, Signed, Scan, Move, Advance, GateOk, Due, Sleeper, Away;
    AdvanceEffect(s);
    DueExactly(s, t);
    var a := Advance(s);
    ScanWakes(a.(gate := Plus(a.tick, MAX_GATE)), a.queues[WAITING], false);
    assert Sleeper(s, t) ==> s.tasks[t].status == Waiting && s.tasks[t].reason == Sleeping by { SleeperIs(s, t); }
  }

  lemma {:induction false} SleeperIs<T>(s: State<T>, t: T)
    requires t in s.tasks
    ensures Sleeper(s, t) ==> s.tasks[t].status == Waiting && s.tasks[t].reason == Sleeping
  {}

  /** As long as the gate has not passed, no sleeper is due and an ungated scan would be idle. */
  lemma {:induction false} GateSkipsNothing<T>(s: State<T>)
    requires Inv(s) && GateOk(s) && !Before(Advance(s).gate, Advance(s).tick)
    ensures WakeSleepers(Advance(s)).(gate := 0) == Advance(s).(gate := 0)
    ensures GateOk(Advance(s))
  {
    hide Inv, Signed, Advance;
    AdvanceKeeps(s);
    AdvanceGate(s);
    var a := Advance(s);
    var b := a.(gate := Plus(a.tick, MAX_GATE));
    ReadyToScan(a);
    forall t | t in a.queues[WAITING] ensures !Due(b, t) {}
    ScanIdle(b, a.queues[WAITING]);
  }

  /** The gated tick computes the same state, the gate aside, as a tick that always scans. */
  lemma {:induction false} TickIsExact<T>(s: State<T>, t: T)
    requires Inv(s) && GateOk(s) && t in s.tasks
    ensures var s' := Tick(s);
            && s'.(gate := 0) == TickAlways(s).(gate := 0)
            && GateOk(s') && s'.tasks.Keys == s.tasks.Keys
            && s'.tasks[t].(timeslice := 0) == AfterTick(s, t)
  {
    hide Inv, GateOk, Before, Advance, WakeSleepers, AfterTick;
    WakeSleepersExact(s, t);
    WakeSleepersGate(s);
    if !Before(Advance(s).gate, Advance(s).tick) {
      GateSkipsNothing(s);
      assert Tick(s) == Advance(s);
      assert Tick(s).tasks == Tick(s).(gate := 0).tasks;
    }
  }

  // ---------------------------------------------------------------- all steps

  /** Every sleeper of s' was one of s, with the same deadline. */
  ghost predicate FewerSleepers<T>(s: State<T>, s': State<T>) {
    forall t :: t in s'.tasks && Sleeper(s', t) ==> Sleeper(s, t) && s'.tasks[t].wakeup == s.tasks[t].wakeup
  }

  lemma {:induction false} FewerKeepsGate<T>(s: State<T>, s': State<T>)
    requires GateOk(s) && FewerSleepers(s, s') && s'.tick == s.tick && s'.gate == s.gate
    ensures GateOk(s')
  {
    hide Signed;
  }

  /** A task goes to sleep, or is put back to sleep: the gate is lowered to its deadline. */
  lemma {:induction false} FallAsleep<T>(s: State<T>, t: T, task: Task<T>)
    requires GateOk(s) && t in s.tasks && -BOUND <= Away(s, task.wakeup) < BOUND
    ensures GateOk(LowerGate(Move(s, t, task), task.wakeup))
  {
    hide Signed, Move;
    MoveEffect(s, t, task);
    SignedDifference(task.wakeup, s.gate, s.tick);
  }

  lemma {:induction false} MoveAwake<T>(s: State<T>, t: T, task: Task<T>)
    requires GateOk(s) && t in s.tasks && !(task.status == Waiting && task.reason == Sleeping)
    ensures GateOk(Move(s, t, task))
  {
    hide Move, GateOk;
    MoveEffect(s, t, task);
    FewerKeepsGate(s, Move(s, t, task));
  }

  lemma {:induction false} TickGate<T>(s: State<T>)
    requires Inv(s) && GateOk(s)
    ensures Tick(s).(gate := 0) == TickAlways(s).(gate := 0) && GateOk(Tick(s))
  {
    hide Inv, GateOk, Before, Advance, WakeSleepers;
    WakeSleepersGate(s);
    if !Before(Advance(s).gate, Advance(s).tick) { GateSkipsNothing(s); }
  }

  lemma {:induction false} ResumeGate<T>(s: State<T>, t: T)
    requires Inv(s) && GateOk(s) && t in s.tasks && Timely(s, ResumeStep(t))
    ensures GateOk(Resume(s, t))
  {
    hide Inv, GateOk, Move;
    if s.tasks[t].status == Suspended {
      if s.tasks[t].reason == Sleeping {
        FallAsleep(s, t, s.tasks[t].(status := Waiting));
      } else {
        FewerKeepsGate(s, Preempt(s));
        MoveAwake(Preempt(s), t, s.tasks[t].(status := Ready));
        MoveAwake(s, t, s.tasks[t].(status := Waiting));
      }
    }
  }

  lemma {:induction false} FinishGate<T>(s: State<T>, stopped: bool)
    requires Inv(s) && GateOk(s) && Legal(s, FinishStep(stopped))
    ensures GateOk(Finish(s, stopped))
  {
    hide Inv, GateOk, Move;
    var c := s.current.value;
    var s' := Finish(s, stopped);
    if stopped {
      hide Finish;
      forall t | t in s.tasks ensures s'.tasks.Keys == s.tasks.Keys && s'.tasks[t] == AfterRetire(s, c, t) {
        FinishReleases(s, t);
      }
      FinishReleases(s, c);
    } else {
      MoveEffect(s.(switching := false, inVm := false), c, s.tasks[c].(status := Ready));
    }
    FewerKeepsGate(s, s');
  }

  /** Every timely step keeps the gate at or before every waiting sleeper. */
  lemma {:induction false} StepGate<T>(s: State<T>, step: Step<T>)
    requires Inv(s) && GateOk(s) && Legal(s, step) && Timely(s, step)
    ensures GateOk(Apply(s, step))
  {
    hide Inv, GateOk, Move, Tick, Resume, Finish, Signed;
    var s' := Apply(s, step);
    match step
    case TickStep => TickGate(s);
    case CreateStep(_, _) => FewerKeepsGate(s, s');
    case SleepStep(ms) =>
      var t := s.queues[READY][0];
      SignedAhead(s.tick, TicksFor(ms));
      var task := s.tasks[t].(status := Waiting, reason := Sleeping, wakeup := Plus(s.tick, TicksFor(ms)));
      FallAsleep(s, t, task);
      FewerKeepsGate(LowerGate(Move(s, t, task), task.wakeup), s');
    case SuspendStep(t) =>
      MoveEffect(s, t, s.tasks[t].(status := Suspended));
      FewerKeepsGate(s, s');
    case ResumeStep(t) => ResumeGate(s, t);
    case TerminateStep(t) =>
      MoveEffect(s, t, s.tasks[t].(status := Dormant));
      FewerKeepsGate(s, s');
    case JoinStep(t) =>
      var c := s.current.value;
      MoveEffect(s, c, s.tasks[c].(status := Waiting, reason := Joining, joined := Some(t)));
      FewerKeepsGate(s, s');
    case PassStep => FewerKeepsGate(s, s');
    case DispatchStep => FewerKeepsGate(s, s');
    case FinishStep(stopped) => FinishGate(s, stopped);
  }

  // ---------------------------------------------------------------- runs

  ghost predicate TimelyRun<T>(s: State<T>, steps: seq<Step<T>>)
    requires LegalRun(s, steps)
    decreases |steps|
  {
    steps == [] || (Timely(s, steps[0]) && TimelyRun(Apply(s, steps[0]), steps[1..]))
  }

  /** Along every timely run the gate stays at or before every waiting sleeper. */
  lemma {:induction false} RunGate<T>(s: State<T>, steps: seq<Step<T>>)
    requires Inv(s) && GateOk(s) && LegalRun(s, steps) && TimelyRun(s, steps)
    ensures Inv(Run(s, steps)) && GateOk(Run(s, steps))
    decreases |steps|
  {
    hide Inv, GateOk, Apply, Legal, Timely;
    if steps != [] {
      StepKeeps(s, steps[0]);
      StepGate(s, steps[0]);
      RunGate(Apply(s, steps[0]), steps[1..]);
    }
  }

  function ApplyAlways<T>(s: State<T>, step: Step<T>): State<T>
    requires Legal(s, step)
  {
    if step.TickStep? then TickAlways(s) else Apply(s, step)
  }

  lemma {:induction false} MoveIgnoresGate<T>(s: State<T>, g: int, t: T, task: Task<T>)
    requires t in s.tasks
    ensures Move(s.(gate := g), t, task) == Move(s, t, task).(gate := g)
  {}

  lemma {:induction false} ReleaseIgnoresGate<T>(s: State<T>, g: int, t: T, pending: seq<T>)
    ensures ReleaseWaiting(s.(gate := g), t, pending) == ReleaseWaiting(s, t, pending).(gate := g)
    ensures ReleaseSuspended(s.(gate := g), t, pending) == ReleaseSuspended(s, t, pending).(gate := g)
    decreases |pending|
  {
    hide Move;
    if pending != [] {
      var u := pending[0];
      ReleaseIgnoresGate(s, g, t, pending[1..]);
      if u in s.tasks && JoinsOn(s.tasks[u], t) {
        MoveIgnoresGate(s, g, u, s.tasks[u].(status := Ready, reason := NoReason));
        ReleaseIgnoresGate(WakeUp(s, u), g, t, pending[1..]);
        var s2 := s.(tasks := s.tasks[u := s.tasks[u].(reason := NoReason)]);
        ReleaseIgnoresGate(s2, g, t, pending[1..]);
        assert s2.(gate := g) == s.(gate := g).(tasks := s2.tasks);
      }
    }
  }

  lemma {:induction false} FinishIgnoresGate<T>(s: State<T>, g: int, stopped: bool)
    requires Legal(s, FinishStep(stopped))
    ensures Finish(s.(gate := g), stopped) == Finish(s, stopped).(gate := g)
  {
    hide Move, ReleaseWaiting, ReleaseSuspended;
    var c := s.current.value;
    var s0 := s.(switching := false, inVm := false);
    assert s.(gate := g).(switching := false, inVm := false) == s0.(gate := g);
    if stopped {
      var done := s.tasks[c].(status := Dormant);
      MoveIgnoresGate(s0, g, c, done);
      var s1 := Move(s0, c, done);
      ReleaseIgnoresGate(s1, g, c, s1.queues[WAITING]);
      var s2 := ReleaseWaiting(s1, c, s1.queues[WAITING]);
      ReleaseIgnoresGate(s2, g, c, s2.queues[SUSPENDED]);
    } else {
      MoveIgnoresGate(s0, g, c, s.tasks[c].(status := Ready));
    }
  }

  lemma {:induction false} ResumeIgnoresGate<T>(s: State<T>, g: int, t: T)
    requires t in s.tasks
    ensures Resume(s.(gate := g), t).(gate := 0) == Resume(s, t).(gate := 0)
  {
    hide Move;
    MoveIgnoresGate(s, g, t, s.tasks[t].(status := Waiting));
    MoveIgnoresGate(Preempt(s), g, t, s.tasks[t].(status := Ready));
    assert Preempt(s.(gate := g)) == Preempt(s).(gate := g);
  }

  lemma {:induction false} SleepIgnoresGate<T>(s: State<T>, g: int, ms: int)
    requires Legal(s, SleepStep(ms))
    ensures SleepMs(s.(gate := g), ms).(gate := 0) == SleepMs(s, ms).(gate := 0)
  {
    hide Move, Before, Plus, TicksFor;
    var t := s.queues[READY][0];
    MoveIgnoresGate(s, g, t, s.tasks[t].(status := Waiting, reason := Sleeping, wakeup := Plus(s.tick, TicksFor(ms))));
  }

  lemma {:induction false} JoinIgnoresGate<T>(s: State<T>, g: int, t: T)
    requires Legal(s, JoinStep(t))
    ensures Join(s.(gate := g), t).(gate := 0) == Join(s, t).(gate := 0)
  {
    hide Move;
    var c := s.current.value;
    MoveIgnoresGate(s, g, c, s.tasks[c].(status := Waiting, reason := Joining, joined := Some(t)));
  }

  /** A step does not read the gate, ticks aside. */
  lemma {:induction false} StepIgnoresGate<T>(s: State<T>, g: int, step: Step<T>)
    requires Legal(s, step)
    ensures Legal(s.(gate := g), step)
    ensures ApplyAlways(s.(gate := g), step).(gate := 0) == ApplyAlways(s, step).(gate := 0)
  {
    hide Move, Before, Plus, TicksFor, WakeSleepers, Resume, Finish, SleepMs, Join, Enqueue, InsertionPoint;
    match step
    case TickStep => WakeIgnoresGate(Advance(s), g);
    case CreateStep(_, _) =>
    case SleepStep(ms) => SleepIgnoresGate(s, g, ms);
    case SuspendStep(t) => MoveIgnoresGate(s, g, t, s.tasks[t].(status := Suspended));
    case ResumeStep(t) => ResumeIgnoresGate(s, g, t);
    case TerminateStep(t) => MoveIgnoresGate(s, g, t, s.tasks[t].(status := Dormant));
    case JoinStep(t) => JoinIgnoresGate(s, g, t);
    case PassStep =>
    case DispatchStep =>
    case FinishStep(stopped) => FinishIgnoresGate(s, g, stopped);
  }

  lemma {:induction false} WakeIgnoresGate<T>(s: State<T>, g: int)
    ensures WakeSleepers(s.(gate := g)) == WakeSleepers(s)
  {
    hide Scan;
    assert s.(gate := g).(gate := Plus(s.tick, MAX_GATE)) == s.(gate := Plus(s.tick, MAX_GATE));
  }

  lemma {:induction false} StepAgrees<T>(s: State<T>, step: Step<T>)
    requires Inv(s) && GateOk(s) && Legal(s, step)
    ensures Apply(s, step).(gate := 0) == ApplyAlways(s, step).(gate := 0)
  {
    hide Inv, GateOk, Tick, TickAlways;
    if step.TickStep? { TickGate(s); }
  }

  predicate LegalRunAlways<T>(s: State<T>, steps: seq<Step<T>>)
    decreases |steps|
  {
    steps == [] || (Legal(s, steps[0]) && LegalRunAlways(ApplyAlways(s, steps[0]), steps[1..]))
  }

  /** The run of a scheduler without the gate: every tick scans the waiting queue. */
  function RunAlways<T>(s: State<T>, steps: seq<Step<T>>): State<T>
    requires LegalRunAlways(s, steps)
    decreases |steps|
  {
    if steps == [] then s else RunAlways(ApplyAlways(s, steps[0]), steps[1..])
  }

  /** The gate is an optimisation only: over every timely run the gated scheduler and the one that
      always scans go through the same states, the gate aside. */
  lemma {:induction false} GateIsInvisible<T>(s: State<T>, g: int, steps: seq<Step<T>>)
    requires Inv(s) && GateOk(s) && LegalRun(s, steps) && TimelyRun(s, steps)
    ensures LegalRunAlways(s.(gate := g), steps)
    ensures RunAlways(s.(gate := g), steps).(gate := 0) == Run(s, steps).(gate := 0)
    decreases |steps|
  {
    hide Inv, GateOk, Apply, Legal, Timely, TickAlways;
    if steps != [] {
      var step, s' := steps[0], Apply(s, steps[0]);
      StepKeeps(s, step);
      StepGate(s, step);
      StepIgnoresGate(s, g, step);
      StepAgrees(s, step);
      var s2' := ApplyAlways(s.(gate := g), step);
      assert s2' == s'.(gate := s2'.gate);
      GateIsInvisible(s', s2'.gate, steps[1..]);
    }
  }

  /** The run starts with the gate in order. */
  lemma {:induction false} InitialGate<T>()
    ensures GateOk(Initial<T>())
  {}

  // ---------------------------------------------------------------- wake-up time

  /** The steps that take a sleeping task elsewhere. */
  predicate Disturbs<T(==)>(s: State<T>, step: Step<T>, t: T) {
    match step
    case SuspendStep(u) => u == t
    case TerminateStep(u) => u == t
    case JoinStep(_) => s.current == Some(t)
    case FinishStep(stopped) => stopped && s.current == Some(t)
    case _ => false
  }

  predicate Undisturbed<T(==)>(s: State<T>, steps: seq<Step<T>>, t: T)
    requires LegalRun(s, steps)
    decreases |steps|
  {
    steps == [] || (!Disturbs(s, steps[0], t) && Undisturbed(Apply(s, steps[0]), steps[1..], t))
  }

  function TickCount<T>(steps: seq<Step<T>>): nat {
    if steps == [] then 0 else (if steps[0].TickStep? then 1 else 0) + TickCount(steps[1..])
  }

  lemma {:induction false} StepUndisturbed<T>(s: State<T>, step: Step<T>, t: T)
    requires Inv(s) && Legal(s, step) && Sleeper(s, t) && !step.TickStep? && !Disturbs(s, step, t)
    ensures var s' := Apply(s, step); t in s'.tasks && s'.tasks[t] == s.tasks[t] && s'.tick == s.tick
  {
    hide Inv, Move;
    QueueIsStatus(s, t, READY);
    match step
    case CreateStep(_, _) =>
    case SleepStep(ms) =>
      var h := s.queues[READY][0];
      MoveEffect(s, h, s.tasks[h].(status := Waiting, reason := Sleeping, wakeup := Plus(s.tick, TicksFor(ms))));
    case SuspendStep(u) => MoveEffect(s, u, s.tasks[u].(status := Suspended));
    case ResumeStep(u) =>
      MoveEffect(s, u, s.tasks[u].(status := Waiting));
      MoveEffect(Preempt(s), u, s.tasks[u].(status := Ready));
    case TerminateStep(u) => MoveEffect(s, u, s.tasks[u].(status := Dormant));
    case JoinStep(u) =>
      var c := s.current.value;
      MoveEffect(s, c, s.tasks[c].(status := Waiting, reason := Joining, joined := Some(u)));
    case PassStep =>
    case DispatchStep =>
    case FinishStep(stopped) =>
      if stopped {
        FinishReleases(s, t);
      } else {
        var c := s.current.value;
        MoveEffect(s.(switching := false, inVm := false), c, s.tasks[c].(status := Ready));
      }
  }

  /** Until its deadline has passed, an undisturbed sleeper keeps sleeping, whatever else runs. */
  lemma {:induction false} SleepsUntilDeadline<T>(s: State<T>, steps: seq<Step<T>>, t: T)
    requires Inv(s) && GateOk(s) && LegalRun(s, steps) && TimelyRun(s, steps)
    requires Sleeper(s, t) && Undisturbed(s, steps, t)
    requires TickCount(steps) == 0 || TickCount(steps) <= Away(s, s.tasks[t].wakeup)
    ensures var m := Run(s, steps);
            && Inv(m) && GateOk(m) && Sleeper(m, t) && m.tasks[t].wakeup == s.tasks[t].wakeup
            && Away(m, s.tasks[t].wakeup) == Away(s, s.tasks[t].wakeup) - TickCount(steps)
    decreases |steps|
  {
    hide Inv, GateOk, Apply, Legal, Timely, Signed, Disturbs;
    if steps != [] {
      var step, s' := steps[0], Apply(s, steps[0]);
      StepKeeps(s, step);
      StepGate(s, step);
      if step.TickStep? {
        TickSparesSleeper(s, t);
      } else {
        StepUndisturbed(s, step, t);
      }
      SleepsUntilDeadline(s', steps[1..], t);
    }
  }

  lemma {:induction false} TickSparesSleeper<T>(s: State<T>, t: T)
    requires Inv(s) && GateOk(s) && Sleeper(s, t) && 0 < Away(s, s.tasks[t].wakeup)
    ensures var s' := Apply(s, TickStep);
            && Sleeper(s', t) && s'.tasks[t].wakeup == s.tasks[t].wakeup
            && Away(s', s.tasks[t].wakeup) == Away(s, s.tasks[t].wakeup) - 1
  {
    hide Inv, GateOk, Signed, Tick;
    TickIsExact(s, t);
    SignedAdvance(s.tasks[t].wakeup, s.tick);
    TickAdvances(s);
  }

  lemma {:induction false} TickAdvances<T>(s: State<T>)
    ensures Tick(s).tick == Plus(s.tick, 1)
  {
    hide Scan, Plus;
    var a := Advance(s);
    ScanWakes(a.(gate := Plus(a.tick, MAX_GATE)), a.queues[WAITING], false);
  }

  /** An undisturbed sleeper becomes READY at exactly the tick after its deadline: it sleeps through
      every run that holds fewer ticks, and the next tick wakes it, across wrap-around. */
  lemma {:induction false} WakesExactly<T>(s: State<T>, steps: seq<Step<T>>, t: T)
    requires Inv(s) && GateOk(s) && LegalRun(s, steps) && TimelyRun(s, steps)
    requires Sleeper(s, t) && Undisturbed(s, steps, t)
    requires TickCount(steps) == (if 0 < Away(s, s.tasks[t].wakeup) then Away(s, s.tasks[t].wakeup) else 0)
    ensures var m := Run(s, steps);
            var s' := Apply(m, TickStep);
            && Sleeper(m, t) && t in s'.tasks && s'.tasks[t].status == Ready && t in s'.queues[READY]
            && (0 <= Away(s, s.tasks[t].wakeup) ==> s'.tick == Plus(s.tasks[t].wakeup, 1))
  {
    hide Inv, GateOk, Signed, Tick, Plus, Apply, Undisturbed, TimelyRun, LegalRun, Run, TickCount;
    SleepsUntilDeadline(s, steps, t);
    var m := Run(s, steps);
    DueWakes(m, t);
    if 0 <= Away(s, s.tasks[t].wakeup) { SameInstant(s.tasks[t].wakeup, m.tick); }
  }

  /** The next tick wakes a sleeper whose deadline has come. */
  lemma {:induction false} DueWakes<T>(m: State<T>, t: T)
    requires Inv(m) && GateOk(m) && Sleeper(m, t) && Away(m, m.tasks[t].wakeup) <= 0
    ensures var s' := Apply(m, TickStep);
            && t in s'.tasks && s'.tasks[t].status == Ready && t in s'.queues[READY]
            && s'.tick == Plus(m.tick, 1)
  {
    hide Inv, GateOk, Signed, Tick, Plus;
    TickIsExact(m, t);
    StepKeeps(m, TickStep);
    QueueIsStatus(Apply(m, TickStep), t, READY);
    TickAdvances(m);
  }

  /** Going to sleep turns the head of the ready queue into a sleeper that is n ticks from its deadline. */
  lemma {:induction false} FallsAsleep<T>(s: State<T>, ms: nat, n: nat)
    requires Inv(s) && GateOk(s) && Legal(s, SleepStep(ms))
    requires ms <= n * TICK_UNIT < ms + TICK_UNIT && n < BOUND
    ensures Timely(s, SleepStep(ms))
    ensures var t, s0 := s.queues[READY][0], Apply(s, SleepStep(ms));
            Inv(s0) && GateOk(s0) && Sleeper(s0, t) && Away(s0, s0.tasks[t].wakeup) == n
  {
    hide Inv, GateOk, Move, Before, Plus, Signed;
    var t := s.queues[READY][0];
    TicksAre(ms, n);
    StepKeeps(s, SleepStep(ms));
    StepGate(s, SleepStep(ms));
    MoveEffect(s, t, s.tasks[t].(status := Waiting, reason := Sleeping, wakeup := Plus(s.tick, n)));
    SignedAhead(s.tick, n);
  }

  lemma {:induction false} TicksAre(ms: nat, n: nat)
    requires ms <= n * TICK_UNIT < ms + TICK_UNIT
    ensures TicksFor(ms) == n
  {}

  /** A call of sleep lasts as long as it asks for: whatever else runs, the task is asleep as long as no
      more ticks have gone by than its milliseconds fill, and the tick after that many makes it READY. */
  lemma {:induction false} SleepLasts<T>(s: State<T>, ms: nat, steps: seq<Step<T>>, n: nat)
    requires Inv(s) && GateOk(s) && Legal(s, SleepStep(ms))
    requires ms <= n * TICK_UNIT < ms + TICK_UNIT && n < BOUND
    requires var t, s0 := s.queues[READY][0], Apply(s, SleepStep(ms));
             LegalRun(s0, steps) && TimelyRun(s0, steps) && Undisturbed(s0, steps, t)
    ensures var t, m := s.queues[READY][0], Run(Apply(s, SleepStep(ms)), steps);
            && (TickCount(steps) <= n ==> Sleeper(m, t))
            && (TickCount(steps) == n ==>
                  var s' := Apply(m, TickStep);
                  t in s'.tasks && s'.tasks[t].status == Ready && t in s'.queues[READY])
  {
    hide Inv, GateOk, Apply, Timely, Signed, TicksFor, TickCount, Undisturbed, Run, LegalRun, TimelyRun;
    var t, s0 := s.queues[READY][0], Apply(s, SleepStep(ms));
    FallsAsleep(s, ms, n);
    if TickCount(steps) <= n { SleepsUntilDeadline(s0, steps, t); }
    if TickCount(steps) == n { WakesExactly(s0, steps, t); }
  }

  lemma {:induction false} SameInstant(x: int, now: int)
    requires Signed(x - now) == 0
    ensures Plus(now, 1) == Plus(x, 1)
  {
    var k: int :| x - now == Signed(x - now) + k * WORD;
    assert x + 1 == (now + 1) + k * WORD;
    assert (now + 1 + k * WORD) % WORD == (now + 1) % WORD;
  }
}
