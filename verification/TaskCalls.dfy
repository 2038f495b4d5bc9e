/** What the calls of the scheduler mean to their callers: who runs, until when, and who does not. */
module TaskCalls {
  import opened Options
  import opened Ticks
  import opened TaskModel
  import opened TaskQueueInvariant
  import opened TaskEffects
  import opened TaskJoin
  import opened TaskRoundRobin
  import opened TaskTiming

  // ---------------------------------------------------------------- stopping a task

  /** Suspended, or done. */
  predicate Parked<T>(s: State<T>, t: T) {
    t in s.tasks && s.tasks[t].status in {Suspended, Dormant}
  }

  /** The task has the processor and calls join. */
  predicate Joins<T(==)>(s: State<T>, step: Step<T>, t: T) {
    step.JoinStep? && s.current == Some(t)
  }

  /** The steps that may bring a parked task back: it is resumed, or calls join while it still
      has the processor. */
  predicate Unparks<T(==)>(s: State<T>, step: Step<T>, t: T) {
    step == ResumeStep(t) || Joins(s, step, t)
  }

  /** The only step that changes a task's effective priority. */
  predicate Passes<T(==)>(s: State<T>, step: Step<T>, t: T) {
    step.PassStep? && s.current == Some(t)
  }

  lemma {:induction false} StepSpares<T>(s: State<T>, step: Step<T>, t: T)
    requires Inv(s) && Legal(s, step) && t in s.tasks
    ensures t in Apply(s, step).tasks
    ensures Parked(s, t) && !Unparks(s, step, t) ==> Parked(Apply(s, step), t)
    ensures !Passes(s, step, t) ==> Prio(Apply(s, step).tasks, t) == Prio(s.tasks, t)
    ensures !Joins(s, step, t) ==> Apply(s, step).tasks[t].joined == s.tasks[t].joined
  {
    hide Inv, Move, Tick, Finish, Plus, TicksFor;
    QueueIsStatus(s, t, READY);
    match step
    case TickStep => TickEffect(s);
    case CreateStep(_, _) =>
    case SleepStep(ms) =>
      var h := s.queues[READY][0];
      MoveEffect(s, h, s.tasks[h].(status := Waiting, reason := Sleeping, wakeup := Plus(s.tick, TicksFor(ms))));
    case SuspendStep(u) => MoveEffect(s, u, s.tasks[u].(status := Suspended));
    case ResumeStep(u) =>
      MoveEffect(s, u, s.tasks[u].(status := Waiting));
      MoveEffect(Preempt(s), u, s.tasks[u].(status := Ready));
    case TerminateStep(u) => MoveEffect(s, u, s.tasks[u].(status := Dormant));
    case JoinStep(u) =>
      var c := s.current.value;
      MoveEffect(s, c, s.tasks[c].(status := Waiting, reason := Joining, joined := Some(u)));
    case PassStep =>
    case DispatchStep =>
    case FinishStep(stopped) => FinishSpares(s, stopped, t);
  }

  lemma {:induction false} FinishSpares<T>(s: State<T>, stopped: bool, t: T)
    requires Inv(s) && Legal(s, FinishStep(stopped)) && t in s.tasks
    ensures var s' := Finish(s, stopped);
            && t in s'.tasks && (Parked(s, t) ==> Parked(s', t))
            && Prio(s'.tasks, t) == Prio(s.tasks, t) && s'.tasks[t].joined == s.tasks[t].joined
  {
    hide Inv, Move;
    if stopped {
      FinishReleases(s, t);
    } else {
      var c := s.current.value;
      MoveEffect(s.(switching := false, inVm := false), c, s.tasks[c].(status := Ready));
    }
  }

  ghost predicate StaysParked<T>(s: State<T>, steps: seq<Step<T>>, t: T)
    requires LegalRun(s, steps)
    decreases |steps|
  {
    steps == [] || (!Unparks(s, steps[0], t) && StaysParked(Apply(s, steps[0]), steps[1..], t))
  }

  lemma {:induction false} RunParked<T>(s: State<T>, steps: seq<Step<T>>, t: T)
    requires Inv(s) && LegalRun(s, steps) && Parked(s, t) && StaysParked(s, steps, t)
    ensures Parked(Run(s, steps), t) && Inv(Run(s, steps)) && t !in Run(s, steps).queues[READY]
    decreases |steps|
  {
    hide Inv, Apply, Legal;
    if steps == [] {
      QueueIsStatus(s, t, READY);
    } else {
      StepSpares(s, steps[0], t);
      StepKeeps(s, steps[0]);
      RunParked(Apply(s, steps[0]), steps[1..], t);
    }
  }

  /** A task that is suspended or terminated does not run again, nor stand in the ready queue, before it
      is resumed. */
  lemma {:induction false} StopsUntilResumed<T>(s: State<T>, t: T, stop: Step<T>, steps: seq<Step<T>>)
    requires Inv(s) && t in s.tasks && stop in {SuspendStep(t), TerminateStep(t)}
    requires LegalRun(Apply(s, stop), steps) && StaysParked(Apply(s, stop), steps, t)
    ensures var s' := Run(Apply(s, stop), steps);
            t in s'.tasks && s'.tasks[t].status !in {Ready, Running} && t !in s'.queues[READY]
  {
    hide Inv, Move, Apply, LegalRun, Run, StaysParked;
    StepKeeps(s, stop);
    Stopped(s, t, stop);
    RunParked(Apply(s, stop), steps, t);
  }

  lemma {:induction false} Stopped<T>(s: State<T>, t: T, stop: Step<T>)
    requires t in s.tasks && stop in {SuspendStep(t), TerminateStep(t)}
    ensures Parked(Apply(s, stop), t)
  {
    hide Move;
    MoveEffect(s, t, s.tasks[t].(status := Suspended));
    MoveEffect(s, t, s.tasks[t].(status := Dormant));
  }

  /** Resuming undoes suspending: a task with nothing to wait for is READY, and one that sleeps or joins
      waits on for the same deadline or target. */
  lemma {:induction false} ResumeUndoesSuspend<T>(s: State<T>, t: T)
    requires Inv(s) && t in s.tasks && s.tasks[t].status !in {Suspended, Dormant}
    ensures var s' := Resume(Suspend(s, t), t);
            && t in s'.tasks && s'.tasks[t].reason == s.tasks[t].reason
            && s'.tasks[t].wakeup == s.tasks[t].wakeup && s'.tasks[t].joined == s.tasks[t].joined
            && s'.tasks[t].preemption == s.tasks[t].preemption
            && (s.tasks[t].reason == NoReason ==> s'.tasks[t].status == Ready && t in s'.queues[READY])
            && (s.tasks[t].reason != NoReason ==> s'.tasks[t].status == Waiting && t in s'.queues[WAITING])
            && forall u :: u in s.tasks && u != t ==> u in s'.tasks && s'.tasks[u] == s.tasks[u]
  {
    hide Inv, Move;
    var s1 := Suspend(s, t);
    SuspendKeeps(s, t);
    MoveEffect(s, t, s.tasks[t].(status := Suspended));
    ResumeKeeps(s1, t);
    MoveEffect(s1, t, s1.tasks[t].(status := Waiting));
    MoveEffect(Preempt(s1), t, s1.tasks[t].(status := Ready));
    QueueIsStatus(Resume(s1, t), t, READY);
    QueueIsStatus(Resume(s1, t), t, WAITING);
  }

  // ---------------------------------------------------------------- joining

  ghost predicate JoinsOnce<T>(s: State<T>, steps: seq<Step<T>>, t: T)
    requires LegalRun(s, steps)
    decreases |steps|
  {
    steps == [] || (!Joins(s, steps[0], t) && JoinsOnce(Apply(s, steps[0]), steps[1..], t))
  }

  /** Somewhere in the run the virtual machine of the target ends. */
  ghost predicate Retires<T>(s: State<T>, steps: seq<Step<T>>, target: T)
    requires LegalRun(s, steps)
    decreases |steps|
  {
    steps != [] &&
    ((steps[0] == FinishStep(true) && s.current == Some(target)) || Retires(Apply(s, steps[0]), steps[1..], target))
  }

  lemma {:induction false} WaitsForTarget<T>(s: State<T>, steps: seq<Step<T>>, t: T, target: T)
    requires Inv(s) && ReasonOk(s) && LegalRun(s, steps) && JoinsOnce(s, steps, t)
    requires t in s.tasks && JoinsOn(s.tasks[t], target)
    requires t in Run(s, steps).tasks && Run(s, steps).tasks[t].status in {Ready, Running}
    ensures Retires(s, steps, target)
    decreases |steps|
  {
    hide Inv, Apply, Legal, Joins;
    if steps != [] {
      StepKeeps(s, steps[0]);
      StepReason(s, steps[0]);
      ReleasedOnlyByTarget(s, steps[0], t);
      StepSpares(s, steps[0], t);
      if Apply(s, steps[0]).tasks[t].reason == Joining { WaitsForTarget(Apply(s, steps[0]), steps[1..], t, target); }
    }
  }

  /** A call of join lasts until its target is over: whatever else runs, the caller is READY or RUNNING
      again only if the target was retired since. */
  lemma {:induction false} JoinLasts<T>(s: State<T>, target: T, steps: seq<Step<T>>)
    requires Inv(s) && ReasonOk(s) && Legal(s, JoinStep(target))
    requires s.current != Some(target) && s.tasks[target].status != Dormant
    requires var s0 := Apply(s, JoinStep(target)); LegalRun(s0, steps) && JoinsOnce(s0, steps, s.current.value)
    ensures var c, s0 := s.current.value, Apply(s, JoinStep(target));
            && c in s0.tasks && s0.tasks[c].status == Waiting && c in s0.queues[WAITING]
            && (c in Run(s0, steps).tasks && Run(s0, steps).tasks[c].status in {Ready, Running} ==>
                  Retires(s0, steps, target))
  {
    hide Inv, Move, Run, LegalRun, JoinsOnce;
    var c, s0 := s.current.value, Apply(s, JoinStep(target));
    StepKeeps(s, JoinStep(target));
    StepReason(s, JoinStep(target));
    MoveEffect(s, c, s.tasks[c].(status := Waiting, reason := Joining, joined := Some(target)));
    QueueIsStatus(s0, c, WAITING);
    if c in Run(s0, steps).tasks && Run(s0, steps).tasks[c].status in {Ready, Running} {
      WaitsForTarget(s0, steps, c, target);
    }
  }

  // ---------------------------------------------------------------- priorities

  /** The processor goes to a task of the best priority among all that are READY. */
  lemma {:induction false} DispatchIsBest<T>(s: State<T>, t: T)
    requires Inv(s) && Legal(s, DispatchStep) && t in s.tasks && s.tasks[t].status == Ready
    ensures var s' := Apply(s, DispatchStep);
            && s'.inVm && s'.current.Some? && s'.current.value in s'.tasks
            && s'.tasks[s'.current.value].status == Running
            && s.tasks[s'.current.value].status == Ready
            && Prio(s.tasks, s'.current.value) <= Prio(s.tasks, t)
  {
    hide NoDuplicates;
    var q := s.queues[READY];
    QueueIsStatus(s, t, READY);
    QueueIsStatus(s, q[0], READY);
    var i :| 0 <= i < |q| && q[i] == t;
    if 0 < i { assert MayPrecede(s.tasks, q[0], q[i]); }
  }

  ghost predicate NeverPasses<T>(s: State<T>, steps: seq<Step<T>>, t: T)
    requires LegalRun(s, steps)
    decreases |steps|
  {
    steps == [] || (!Passes(s, steps[0], t) && NeverPasses(Apply(s, steps[0]), steps[1..], t))
  }

  lemma {:induction false} RunPriority<T>(s: State<T>, steps: seq<Step<T>>, t: T)
    requires Inv(s) && LegalRun(s, steps) && t in s.tasks && NeverPasses(s, steps, t)
    ensures Inv(Run(s, steps)) && t in Run(s, steps).tasks && Prio(Run(s, steps).tasks, t) == Prio(s.tasks, t)
    decreases |steps|
  {
    hide Inv, Apply, Legal, Prio, Passes;
    if steps != [] {
      StepSpares(s, steps[0], t);
      StepKeeps(s, steps[0]);
      RunPriority(Apply(s, steps[0]), steps[1..], t);
    }
  }

  /** A task is created READY, and over any run in which it does not pass, no task of a worse priority
      than it was created with is given the processor while it is READY. */
  lemma {:induction false} CreatedBeforeWorse<T>(s: State<T>, t: T, priority: int, steps: seq<Step<T>>)
    requires Inv(s) && Legal(s, CreateStep(t, priority))
    requires var s0 := Apply(s, CreateStep(t, priority)); LegalRun(s0, steps) && NeverPasses(s0, steps, t)
    ensures var s0, m := Apply(s, CreateStep(t, priority)), Run(Apply(s, CreateStep(t, priority)), steps);
            && t in s0.tasks && s0.tasks[t].status == Ready && t in s0.queues[READY]
            && (Legal(m, DispatchStep) && t in m.tasks && m.tasks[t].status == Ready ==>
                  var c := Apply(m, DispatchStep).current;
                  c.Some? && Prio(m.tasks, c.value) <= priority % 256)
  {
    hide Inv, Run, LegalRun, NeverPasses;
    var s0 := Apply(s, CreateStep(t, priority));
    StepKeeps(s, CreateStep(t, priority));
    QueueIsStatus(s0, t, READY);
    RunPriority(s0, steps, t);
    var m := Run(s0, steps);
    if Legal(m, DispatchStep) && t in m.tasks && m.tasks[t].status == Ready { DispatchIsBest(m, t); }
  }

  /** After `Task.pass` a task goes behind every ready task of priority 0 or 1 and in front of all others,
      whatever its priority was. */
  lemma {:induction false} PassYields<T>(s: State<T>) returns (i: nat)
    requires Inv(s) && Legal(s, PassStep)
    ensures var s' := Apply(Apply(s, PassStep), FinishStep(false));
            var q := s'.queues[READY];
            && i < |q| && s.current == Some(q[i]) && s'.tasks[q[i]].status == Ready
            && (forall j :: 0 <= j < i ==> Prio(s'.tasks, q[j]) <= 1)
            && (forall j :: i < j < |q| ==> 1 < Prio(s'.tasks, q[j]))
            && (forall u :: u in s.queues[READY] ==> u in q)
  {
    hide NoDuplicates, Dequeue, Filed, OneRunning;
    var c, s1 := s.current.value, Apply(s, PassStep);
    StepKeeps(s, PassStep);
    StepKeeps(s1, FinishStep(false));
    var s' := Apply(s1, FinishStep(false));
    var r := Dequeue(s.queues[READY], c);
    QueueIsStatus(s, c, READY);
    var _ := DequeueKeeps(s.queues[READY], c) by { Distinct(s); }
    i := InsertionPoint(r, s'.tasks, 1);
    var q := s'.queues[READY];
    assert q == InsertAt(r, i, c);
    assert forall j :: 0 <= j < |q| ==> q[j] == if j < i then r[j] else if j == i then c else r[j - 1];
    BehindIsWorse(s', i);
    forall u | u in s.queues[READY] ensures u in q {
      if u != c { assert u in r; }
      assert q[i] == c;
    }
  }

  lemma {:induction false} BehindIsWorse<T>(s: State<T>, i: nat)
    requires Inv(s) && !s.inVm && (i + 1 < |s.queues[READY]| ==> 1 < Prio(s.tasks, s.queues[READY][i + 1]))
    ensures forall j :: i < j < |s.queues[READY]| ==> 1 < Prio(s.tasks, s.queues[READY][j])
  {
    var q := s.queues[READY];
    forall j | i < j < |q| ensures 1 < Prio(s.tasks, q[j]) {
      if i + 1 < j { assert MayPrecede(s.tasks, q[i + 1], q[j]); }
    }
  }

  lemma {:induction false} Distinct<T>(s: State<T>)
    requires Inv(s)
    ensures forall k :: 0 <= k < 4 ==> NoDuplicates(s.queues[k])
  {}

  // ---------------------------------------------------------------- asking for a switch

  /** The head of the ready queue, if it has one tick left. */
  predicate SliceEnds<T>(s: State<T>) {
    s.queues[READY] != [] && s.queues[READY][0] in s.tasks && s.tasks[s.queues[READY][0]].timeslice == 1
  }

  predicate SomeRuns<T(!new)>(s: State<T>) {
    exists t :: t in s.tasks && s.tasks[t].status == Running
  }

  lemma {:induction false} PreemptExactly<T(!new)>(s: State<T>)
    requires Inv(s)
    ensures Preempt(s).switching <==> s.switching || SomeRuns(s)
  {
    hide Sorted, NoDuplicates;
    if SomeRuns(s) {
      var t :| t in s.tasks && s.tasks[t].status == Running;
      QueueIsStatus(s, t, READY);
    }
  }

  /** When a switch is asked for after a step other than a tick. */
  predicate AsksToSwitch<T(==,!new)>(s: State<T>, step: Step<T>)
    requires Legal(s, step)
  {
    match step
    case CreateStep(_, _) => SomeRuns(s)
    case SleepStep(_) => true
    case SuspendStep(t) => s.tasks[t].status != Suspended
    case ResumeStep(t) => s.tasks[t].status == Suspended && s.tasks[t].reason == NoReason && SomeRuns(s)
    case JoinStep(t) => s.current != Some(t) && s.tasks[t].status != Dormant
    case _ => false
  }

  /** Until the end of the turn, a request to switch stays, and a step makes one if it takes the caller
      off the processor or brings a task that may be better than the running one. */
  lemma {:induction false} StepSwitches<T(!new)>(s: State<T>, step: Step<T>)
    requires Inv(s) && Legal(s, step) && !step.TickStep?
    ensures Apply(s, step).switching <==> !step.FinishStep? && (s.switching || AsksToSwitch(s, step))
  {
    hide Inv, Move, SomeRuns;
    match step
    case TickStep =>
    case CreateStep(t, p) =>
      PreemptExactly(s);
      CreateSwitches(s, t, p);
    case SleepStep(ms) =>
    case SuspendStep(u) => MoveEffect(s, u, s.tasks[u].(status := Suspended));
    case ResumeStep(u) =>
      PreemptExactly(s);
      MoveEffect(s, u, s.tasks[u].(status := Waiting));
      MoveEffect(Preempt(s), u, s.tasks[u].(status := Ready));
    case TerminateStep(u) => MoveEffect(s, u, s.tasks[u].(status := Dormant));
    case JoinStep(u) =>
      var c := s.current.value;
      MoveEffect(s, c, s.tasks[c].(status := Waiting, reason := Joining, joined := Some(u)));
    case PassStep =>
    case DispatchStep =>
    case FinishStep(stopped) => FinishSwitches(s, stopped);
  }

  lemma {:induction false} CreateSwitches<T(!new)>(s: State<T>, t: T, priority: int)
    requires Inv(s) && t !in s.tasks
    ensures Create(s, t, priority).switching <==> s.switching || SomeRuns(s)
  {
    hide Inv, Enqueue;
    var p := priority % 256;
    var tasks := s.tasks[t := Task(p, p, 0, Ready, NoReason, 0, None)];
    var s' := s.(tasks := tasks, queues := s.queues[READY := Enqueue(s.queues[READY], tasks, t)]);
    CreateKeeps(s, t, priority);
    var made := Create(s, t, priority);
    ClockFrame(made, made.tick, made.gate, s.switching);
    assert s' == made.(switching := s.switching);
    PreemptExactly(s');
    assert forall u :: u in s.tasks ==> u != t && s'.tasks[u] == s.tasks[u];
    assert s'.tasks[t].status == Ready;
  }

  lemma {:induction false} FinishSwitches<T>(s: State<T>, stopped: bool)
    requires Legal(s, FinishStep(stopped))
    ensures !Finish(s, stopped).switching
  {
    hide Move, ReleaseWaiting, ReleaseSuspended;
    var c := s.current.value;
    var s0 := s.(switching := false, inVm := false);
    MoveEffect(s0, c, s.tasks[c].(status := Dormant));
    MoveEffect(s0, c, s.tasks[c].(status := Ready));
    var s1 := Move(s0, c, s.tasks[c].(status := Dormant));
    ReleaseWaitingEffect(s1, c, s1.queues[WAITING]);
    var s2 := ReleaseWaiting(s1, c, s1.queues[WAITING]);
    ReleaseSuspendedEffect(s2, c, s2.queues[SUSPENDED]);
  }

  lemma {:induction false} AdvanceSwitches<T(!new)>(s: State<T>)
    requires Inv(s)
    ensures Advance(s).switching <==> s.switching || SliceEnds(s)
    ensures SomeRuns(Advance(s)) <==> SomeRuns(s)
    ensures forall t :: t in s.tasks ==> t in Advance(s).tasks && Advance(s).tasks[t].status == s.tasks[t].status
  {
    hide Inv;
    AdvanceEffect(s);
    var a := Advance(s);
    assert forall t :: t in s.tasks ==> SameButSlice(a.tasks[t], s.tasks[t]);
  }

  /** What a scan does to those that run and those that wake. */
  lemma {:induction false} ScanSwitches<T(!new)>(a: State<T>)
    requires Inv(a)
    ensures var (r, woke) := Scan(a, a.queues[WAITING], false);
            && Inv(r) && r.switching == a.switching && r.tasks.Keys == a.tasks.Keys
            && (SomeRuns(r) <==> SomeRuns(a))
            && (woke <==> exists t :: t in a.tasks && a.tasks[t].status == Waiting && r.tasks[t].status == Ready)
  {
    hide Inv, Before;
    var (r, woke) := Scan(a, a.queues[WAITING], false);
    ScanWakes(a, a.queues[WAITING], false);
    ScanKeeps(a, a.queues[WAITING], false);
    forall t | t in a.tasks
      ensures t in a.queues[WAITING] <==> a.tasks[t].status == Waiting
      ensures r.tasks[t].status == Running <==> a.tasks[t].status == Running
    {
      QueueIsStatus(a, t, WAITING);
    }
    WaitingApart(a);
  }

  /** A tick asks the running task to give way if and only if the slice of the head ends, or a task wakes
      while one is running. */
  lemma {:induction false} TickSwitches<T(!new)>(s: State<T>)
    requires Inv(s)
    ensures Tick(s).switching <==>
            s.switching || SliceEnds(s) || (SomeRuns(s) && exists t :: t in s.tasks && Wakes(s, t))
  {
    hide Inv, Before, Scan, Advance, SliceEnds, SomeRuns;
    var a := Advance(s);
    AdvanceSwitches(s);
    AdvanceKeeps(s);
    AdvanceEffect(s);
    if Before(a.gate, a.tick) {
      var b := a.(gate := Plus(a.tick, MAX_GATE));
      ClockFrame(a, a.tick, b.gate, a.switching);
      ScanSwitches(b);
      RunsSame(a, b);
      PreemptExactly(Scan(b, a.queues[WAITING], false).0);
    }
  }

  lemma {:induction false} RunsSame<T(!new)>(a: State<T>, b: State<T>)
    requires a.tasks == b.tasks
    ensures SomeRuns(a) <==> SomeRuns(b)
  {}

  /** A task that has been given the processor is asked to give way at its third tick and not before,
      unless it has been asked already or a task wakes. */
  lemma {:induction false} SliceIsThreeTicks<T(!new)>(s: State<T>, n: nat)
    requires Inv(s) && Legal(s, DispatchStep) && WakeNobody(Dispatch(s), n)
    ensures RunTicks(Dispatch(s), n).switching <==> s.switching || 3 <= n
  {
    hide Inv, Tick, WakeNobody;
    DispatchKeeps(s);
    SliceCounts(Dispatch(s), s.queues[READY][0], n);
  }

  lemma {:induction false} SliceCounts<T(!new)>(s: State<T>, h: T, n: nat)
    requires Inv(s) && s.queues[READY] != [] && s.queues[READY][0] == h && h in s.tasks && WakeNobody(s, n)
    ensures RunTicks(s, n).switching <==> s.switching || 0 < s.tasks[h].timeslice <= n
    decreases n
  {
    hide Inv, Tick;
    if n > 0 {
      var s' := Tick(s);
      TickSwitches(s);
      TickKeeps(s);
      TickCountsSlice(s, h);
      SliceCounts(s', h, n - 1);
    }
  }

  lemma {:induction false} AdvanceSlice<T>(s: State<T>, h: T)
    requires s.queues[READY] != [] && s.queues[READY][0] == h && h in s.tasks
    ensures h in Advance(s).tasks && Advance(s).queues == s.queues
    ensures Advance(s).tasks[h].timeslice == if s.tasks[h].timeslice == 0 then 0 else s.tasks[h].timeslice - 1
  {}

  lemma {:induction false} TickCountsSlice<T>(s: State<T>, h: T)
    requires Inv(s) && s.queues[READY] != [] && s.queues[READY][0] == h && h in s.tasks
    requires forall t :: t in s.tasks ==> !Wakes(s, t)
    ensures var s' := Tick(s);
            && s'.queues[READY] == s.queues[READY] && h in s'.tasks
            && s'.tasks[h].timeslice == if s.tasks[h].timeslice == 0 then 0 else s.tasks[h].timeslice - 1
  {
    hide Inv, Before, Scan, Advance;
    var a := Advance(s);
    AdvanceSlice(s, h);
    AdvanceKeeps(s);
    AdvanceEffect(s);
    if Before(a.gate, a.tick) {
      var b := a.(gate := Plus(a.tick, MAX_GATE));
      ScanWakes(b, a.queues[WAITING], false);
      WaitingApart(a);
      forall t | t in a.queues[WAITING] ensures !Due(b, t) {
        assert !Wakes(s, t);
        assert SameButSlice(a.tasks[t], s.tasks[t]);
      }
      ScanIdle(b, a.queues[WAITING]);
    }
  }
}
