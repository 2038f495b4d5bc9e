/** Join safety: a joined task waits until its target is done, and is then released. */
module TaskJoin {
  import opened Options
  import opened Ticks
  import opened TaskModel
  import opened TaskQueueInvariant
  import opened TaskEffects

  /** Ready tasks wait for nothing, waiting tasks for something, and a join names another task. */
  ghost predicate ReasonOk<T>(s: State<T>) {
    forall t :: t in s.tasks ==> BlockOk(s, t, s.tasks[t])
  }

  ghost predicate BlockOk<T>(s: State<T>, t: T, task: Task<T>) {
    && (task.status in {Ready, Running} ==> task.reason == NoReason)
    && (task.status == Waiting ==> task.reason != NoReason)
    && (task.reason == Joining ==> task.joined.Some? && task.joined.value in s.tasks && task.joined.value != t)
  }

  predicate LiveJoiner<T>(s: State<T>, t: T) {
    t in s.tasks && s.tasks[t].status != Dormant && s.tasks[t].reason == Joining
  }

  /** A live joiner is WAITING or SUSPENDED, on a target that is not done. */
  ghost predicate JoinSafe<T>(s: State<T>) {
    forall t :: t in s.tasks && LiveJoiner(s, t) ==>
      && s.tasks[t].status in {Waiting, Suspended}
      && s.tasks[t].joined.Some? && s.tasks[t].joined.value in s.tasks
      && s.tasks[s.tasks[t].joined.value].status != Dormant
  }

  // ---------------------------------------------------------------- one step

  /** A target that JoinSafe accepts for the task t: it exists and is not done. */
  predicate LiveTarget<T>(s: State<T>, t: T) {
    t in s.tasks && s.tasks[t].joined.Some? && s.tasks[t].joined.value in s.tasks
    && s.tasks[s.tasks[t].joined.value].status != Dormant
  }

  /** The two calls that can break join safety: reviving, by suspending it, a DORMANT task that was
      retired inside a join whose target is done by now; and terminating a task that has live joiners,
      since `mrb_terminate_task` wakes none of them. */
  predicate JoinGuard<T(==)>(s: State<T>, step: Step<T>) {
    match step
    case SuspendStep(t) =>
      t in s.tasks && s.tasks[t].status == Dormant && s.tasks[t].reason == Joining ==> LiveTarget(s, t)
    case TerminateStep(t) => forall u :: u in s.tasks && LiveJoiner(s, u) ==> !JoinsOn(s.tasks[u], t)
    case _ => true
  }

  /** A move keeps the invariant on reasons if the moved control block respects it. */
  lemma {:induction false} MoveReason<T>(s: State<T>, t: T, task: Task<T>)
    requires ReasonOk(s) && t in s.tasks && BlockOk(s, t, task)
    ensures ReasonOk(Move(s, t, task))
  {
    hide Move;
    MoveEffect(s, t, task);
  }

  lemma {:induction false} TickReason<T>(s: State<T>)
    requires Inv(s) && ReasonOk(s)
    ensures ReasonOk(Tick(s))
  {
    hide Inv, Tick;
    TickEffect(s);
    forall t | t in s.tasks ensures BlockOk(s, t, Tick(s).tasks[t]) {
      assert Ticked(s.tasks[t], Tick(s).tasks[t]);
    }
  }

  lemma {:induction false} FinishReason<T>(s: State<T>)
    requires Inv(s) && ReasonOk(s) && Legal(s, FinishStep(true))
    ensures ReasonOk(Finish(s, true))
  {
    hide Inv, Finish;
    var s' := Finish(s, true);
    forall t | t in s.tasks ensures s'.tasks.Keys == s.tasks.Keys && BlockOk(s, t, s'.tasks[t]) {
      FinishReleases(s, t);
    }
    FinishReleases(s, s.current.value);
  }

  lemma {:induction false} StepReason<T>(s: State<T>, step: Step<T>)
    requires Inv(s) && ReasonOk(s) && Legal(s, step)
    ensures ReasonOk(Apply(s, step))
  {
    hide Inv, Move, Tick;
    match step
    case TickStep => TickReason(s);
    case CreateStep(_, _) =>
    case SleepStep(ms) =>
      var t := s.queues[READY][0];
      MoveReason(s, t, s.tasks[t].(status := Waiting, reason := Sleeping, wakeup := Plus(s.tick, TicksFor(ms))));
    case SuspendStep(t) => MoveReason(s, t, s.tasks[t].(status := Suspended));
    case ResumeStep(t) =>
      if s.tasks[t].reason == NoReason {
        MoveReason(Preempt(s), t, s.tasks[t].(status := Ready));
      } else {
        MoveReason(s, t, s.tasks[t].(status := Waiting));
      }
    case TerminateStep(t) => MoveReason(s, t, s.tasks[t].(status := Dormant));
    case JoinStep(t) =>
      var c := s.current.value;
      if t != c {
        MoveReason(s, c, s.tasks[c].(status := Waiting, reason := Joining, joined := Some(t)));
      }
    case PassStep =>
    case DispatchStep => QueueIsStatus(s, s.queues[READY][0], READY);
    case FinishStep(stopped) =>
      if stopped {
        FinishReason(s);
      } else if s.tasks[s.current.value].status == Running {
        var c := s.current.value;
        MoveReason(s.(switching := false, inVm := false), c, s.tasks[c].(status := Ready));
      }
  }

  lemma {:induction false} TickJoinSafe<T>(s: State<T>)
    requires Inv(s) && ReasonOk(s) && JoinSafe(s)
    ensures JoinSafe(Tick(s))
  {
    hide Inv, Tick;
    var s' := Tick(s);
    TickEffect(s);
  }

  lemma {:induction false} SuspendJoinSafe<T>(s: State<T>, t: T)
    requires ReasonOk(s) && JoinSafe(s) && t in s.tasks
    ensures JoinSafe(Suspend(s, t)) <==> JoinGuard(s, SuspendStep(t))
  {
    hide Move;
    var s' := Suspend(s, t);
    MoveEffect(s, t, s.tasks[t].(status := Suspended));
    if JoinSafe(s') && s.tasks[t].status == Dormant && s.tasks[t].reason == Joining {
      assert LiveJoiner(s', t);
    }
  }

  lemma {:induction false} TerminateJoinSafe<T>(s: State<T>, t: T)
    requires ReasonOk(s) && JoinSafe(s) && t in s.tasks
    ensures JoinSafe(Terminate(s, t)) <==> JoinGuard(s, TerminateStep(t))
  {
    hide Move;
    var s' := Terminate(s, t);
    MoveEffect(s, t, s.tasks[t].(status := Dormant));
    if JoinSafe(s') {
      forall u | u in s.tasks && LiveJoiner(s, u) ensures !JoinsOn(s.tasks[u], t) {
        if u != t { assert LiveJoiner(s', u); }
      }
    } else {
      var u :| u in s'.tasks && LiveJoiner(s', u) &&
        !(s'.tasks[u].status in {Waiting, Suspended} && s'.tasks[u].joined.Some? && s'.tasks[u].joined.value in s'.tasks
          && s'.tasks[s'.tasks[u].joined.value].status != Dormant);
      assert LiveJoiner(s, u);
      assert JoinsOn(s.tasks[u], t);
    }
  }

  lemma {:induction false} FinishJoinSafe<T>(s: State<T>)
    requires Inv(s) && ReasonOk(s) && JoinSafe(s) && Legal(s, FinishStep(true))
    ensures JoinSafe(Finish(s, true))
  {
    hide Inv, Finish;
    var c, s' := s.current.value, Finish(s, true);
    FinishReleases(s, c);
    forall u | u in s'.tasks && LiveJoiner(s', u)
      ensures LiveJoiner(s, u) && s'.tasks[u] == s.tasks[u] && s.tasks[u].joined != Some(c)
      ensures s'.tasks[s'.tasks[u].joined.value].status != Dormant
    {
      FinishReleases(s, u);
      assert LiveJoiner(s, u);
      FinishReleases(s, s.tasks[u].joined.value);
    }
  }

  /** A move to a live status keeps join safety, provided that the moved task, if it joins, has a live
      target and a status to wait in. */
  lemma {:induction false} MoveJoinSafe<T>(s: State<T>, t: T, task: Task<T>)
    requires JoinSafe(s) && t in s.tasks && task.status != Dormant
    requires task.reason == Joining ==> task.status in {Waiting, Suspended}
    requires task.reason == Joining ==> task.joined.Some? && task.joined.value in s.tasks && task.joined.value != t
    requires task.reason == Joining ==> s.tasks[task.joined.value].status != Dormant
    ensures JoinSafe(Move(s, t, task))
  {
    hide Move;
    MoveEffect(s, t, task);
  }

  /** A step keeps join safety exactly when it respects the guard. */
  lemma {:induction false} StepJoinSafe<T>(s: State<T>, step: Step<T>)
    requires Inv(s) && ReasonOk(s) && JoinSafe(s) && Legal(s, step)
    ensures JoinSafe(Apply(s, step)) <==> JoinGuard(s, step)
  {
    hide Inv, Move, Tick, Finish, Suspend, Terminate;
    match step
    case TickStep => TickJoinSafe(s);
    case CreateStep(_, _) =>
    case SleepStep(ms) =>
      var t := s.queues[READY][0];
      MoveJoinSafe(s, t, s.tasks[t].(status := Waiting, reason := Sleeping, wakeup := Plus(s.tick, TicksFor(ms))));
    case SuspendStep(t) => SuspendJoinSafe(s, t);
    case ResumeStep(t) => ResumeJoinSafe(s, t);
    case TerminateStep(t) => TerminateJoinSafe(s, t);
    case JoinStep(t) =>
      var c := s.current.value;
      if t != c && s.tasks[t].status != Dormant {
        MoveJoinSafe(s, c, s.tasks[c].(status := Waiting, reason := Joining, joined := Some(t)));
      }
    case PassStep =>
    case DispatchStep => DispatchJoinSafe(s);
    case FinishStep(stopped) =>
      if stopped { FinishJoinSafe(s); } else { YieldJoinSafe(s); }
  }

  lemma {:induction false} ResumeJoinSafe<T>(s: State<T>, t: T)
    requires Inv(s) && ReasonOk(s) && JoinSafe(s) && t in s.tasks
    ensures JoinSafe(Resume(s, t))
  {
    hide Inv, Move;
    if s.tasks[t].status == Suspended {
      if s.tasks[t].reason == NoReason {
        MoveJoinSafe(Preempt(s), t, s.tasks[t].(status := Ready));
      } else {
        assert LiveJoiner(s, t) <==> s.tasks[t].reason == Joining;
        MoveJoinSafe(s, t, s.tasks[t].(status := Waiting));
      }
    }
  }

  lemma {:induction false} DispatchJoinSafe<T>(s: State<T>)
    requires Inv(s) && ReasonOk(s) && JoinSafe(s) && Legal(s, DispatchStep)
    ensures JoinSafe(Dispatch(s))
  {
    hide Inv;
    QueueIsStatus(s, s.queues[READY][0], READY);
  }

  lemma {:induction false} YieldJoinSafe<T>(s: State<T>)
    requires Inv(s) && ReasonOk(s) && JoinSafe(s) && Legal(s, FinishStep(false))
    ensures JoinSafe(Finish(s, false))
  {
    hide Inv, Move;
    var c := s.current.value;
    if s.tasks[c].status == Running {
      MoveJoinSafe(s.(switching := false, inVm := false), c, s.tasks[c].(status := Ready));
    }
  }

  /** A joiner is released by one step only: the one that retires its target. */
  lemma {:induction false} ReleasedOnlyByTarget<T>(s: State<T>, step: Step<T>, t: T)
    requires Inv(s) && ReasonOk(s) && Legal(s, step)
    requires t in s.tasks && s.tasks[t].reason == Joining
    ensures t in Apply(s, step).tasks
    ensures Apply(s, step).tasks[t].reason != Joining <==>
      step == FinishStep(true) && s.current == s.tasks[t].joined && s.tasks[t].status in {Waiting, Suspended}
  {
    hide Inv, Move;
    match step
    case TickStep => TickEffect(s);
    case CreateStep(_, _) =>
    case SleepStep(ms) =>
      var h := s.queues[READY][0];
      QueueIsStatus(s, h, READY);
      MoveEffect(s, h, s.tasks[h].(status := Waiting, reason := Sleeping, wakeup := Plus(s.tick, TicksFor(ms))));
    case SuspendStep(u) => MoveEffect(s, u, s.tasks[u].(status := Suspended));
    case ResumeStep(u) =>
      MoveEffect(s, u, s.tasks[u].(status := Waiting));
      MoveEffect(Preempt(s), u, s.tasks[u].(status := Ready));
    case TerminateStep(u) => MoveEffect(s, u, s.tasks[u].(status := Dormant));
    case JoinStep(u) =>
      var c := s.current.value;
      MoveEffect(s, c, s.tasks[c].(status := Waiting, reason := Joining, joined := Some(u)));
    case PassStep =>
    case DispatchStep =>
    case FinishStep(stopped) =>
      if stopped {
        FinishReleases(s, t);
      } else {
        var c := s.current.value;
        MoveEffect(s.(switching := false, inVm := false), c, s.tasks[c].(status := Ready));
      }
  }

  // ---------------------------------------------------------------- runs

  ghost predicate GuardedRun<T>(s: State<T>, steps: seq<Step<T>>)
    requires LegalRun(s, steps)
    decreases |steps|
  {
    steps == [] || (JoinGuard(s, steps[0]) && GuardedRun(Apply(s, steps[0]), steps[1..]))
  }

  /** Along every guarded run, live joiners wait on targets that are not done. */
  lemma {:induction false} RunJoinSafe<T>(s: State<T>, steps: seq<Step<T>>)
    requires Inv(s) && ReasonOk(s) && JoinSafe(s) && LegalRun(s, steps) && GuardedRun(s, steps)
    ensures var s' := Run(s, steps); Inv(s') && ReasonOk(s') && JoinSafe(s')
    decreases |steps|
  {
    hide Inv, ReasonOk, JoinSafe, Apply, Legal;
    if steps != [] {
      StepKeeps(s, steps[0]);
      StepReason(s, steps[0]);
      StepJoinSafe(s, steps[0]);
      RunJoinSafe(Apply(s, steps[0]), steps[1..]);
    }
  }

  /** Somewhere in the run the task that t is waiting for at that moment is retired. */
  ghost predicate TargetRetired<T>(s: State<T>, steps: seq<Step<T>>, t: T)
    requires LegalRun(s, steps)
    decreases |steps|
  {
    steps != [] &&
    ((&& steps[0] == FinishStep(true) && t in s.tasks && s.tasks[t].reason == Joining
      && s.tasks[t].joined.Some? && s.current == s.tasks[t].joined)
     || TargetRetired(Apply(s, steps[0]), steps[1..], t))
  }

  /** A joiner leaves its join, over any run, only after its target was retired. */
  lemma {:induction false} ReadyOnlyAfterTarget<T>(s: State<T>, steps: seq<Step<T>>, t: T)
    requires Inv(s) && ReasonOk(s) && LegalRun(s, steps)
    requires t in s.tasks && s.tasks[t].reason == Joining
    requires t in Run(s, steps).tasks && Run(s, steps).tasks[t].status in {Ready, Running}
    ensures TargetRetired(s, steps, t)
    decreases |steps|
  {
    hide Inv, Apply, Legal;
    if steps != [] {
      StepKeeps(s, steps[0]);
      StepReason(s, steps[0]);
      ReleasedOnlyByTarget(s, steps[0], t);
      if Apply(s, steps[0]).tasks[t].reason == Joining {
        ReadyOnlyAfterTarget(Apply(s, steps[0]), steps[1..], t);
      }
    }
  }

  /** Terminating the target of a live join strands the joiner: it waits on a task that is done. */
  lemma {:induction false} TerminateStrandsJoiner<T>(s: State<T>, t: T, u: T)
    requires Inv(s) && ReasonOk(s) && t in s.tasks && s.tasks[t].status != Dormant
    requires u in s.tasks && LiveJoiner(s, u) && JoinsOn(s.tasks[u], t)
    ensures !JoinSafe(Terminate(s, t))
  {
    hide Inv, Move;
    MoveEffect(s, t, s.tasks[t].(status := Dormant));
    assert LiveJoiner(Terminate(s, t), u);
  }

  /** The run starts with nobody joined. */
  lemma {:induction false} InitialJoin<T>()
    ensures ReasonOk(Initial<T>()) && JoinSafe(Initial<T>())
  {}

  /** A run from the start that strands a joiner: a is created and runs, b is created, a joins b, and b
      is terminated. */
  function StrandingRun<T>(a: T, b: T): seq<Step<T>> {
    [CreateStep(a, 1), DispatchStep, CreateStep(b, 1), JoinStep(b), TerminateStep(b)]
  }

  lemma {:induction false} FirstRuns<T>(a: T)
    ensures var s1 := Create(Initial(), a, 1);
            && s1.queues[READY] == [a] && !s1.inVm && s1.tasks.Keys == {a}
            && Dispatch(s1).current == Some(a) && Dispatch(s1).inVm && Dispatch(s1).tasks.Keys == {a}
  {
    var q: seq<T> := [];
    assert InsertAt(q, 0, a) == [a];
  }

  lemma {:induction false} CreateTasks<T>(s: State<T>, t: T, priority: int)
    requires t !in s.tasks
    ensures var s' := Create(s, t, priority);
            && s'.tasks == s.tasks[t := s'.tasks[t]] && s'.tasks[t].status == Ready
            && s'.current == s.current && s'.inVm == s.inVm
  {
    hide Enqueue;
  }

  /** a, which runs, joins b; then b is terminated. */
  lemma {:induction false} JoinThenTerminate<T>(s: State<T>, a: T, b: T)
    requires a != b && a in s.tasks && b in s.tasks && s.current == Some(a) && s.tasks[b].status != Dormant
    ensures var s1 := Join(s, b); b in s1.tasks && b in Terminate(s1, b).tasks && !JoinSafe(Terminate(s1, b))
  {
    hide Move;
    var task := s.tasks[a].(status := Waiting, reason := Joining, joined := Some(b));
    MoveEffect(s, a, task);
    var s1 := Join(s, b);
    assert s1.tasks == s.tasks[a := task];
    MoveEffect(s1, b, s1.tasks[b].(status := Dormant));
    assert LiveJoiner(Terminate(s1, b), a);
  }

  lemma {:induction false} RunCons<T>(s: State<T>, step: Step<T>, rest: seq<Step<T>>)
    requires Legal(s, step) && LegalRun(Apply(s, step), rest)
    ensures LegalRun(s, [step] + rest) && Run(s, [step] + rest) == Run(Apply(s, step), rest)
  {
    hide Apply, Legal;
    assert ([step] + rest)[1..] == rest;
  }

  lemma {:induction false} StrandingReachable<T>(a: T, b: T)
    requires a != b
    ensures LegalRun(Initial<T>(), StrandingRun(a, b)) && !JoinSafe(Run(Initial<T>(), StrandingRun(a, b)))
  {
    hide Create, Dispatch, Join, Terminate, JoinSafe, LegalRun, Run;
    var s0: State<T> := Initial();
    assert s0.tasks == map[];
    var s1 := Create(s0, a, 1);
    FirstRuns(a);
    var s2 := Dispatch(s1);
    CreateTasks(s2, b, 1);
    var s3 := Create(s2, b, 1);
    JoinThenTerminate(s3, a, b);
    var s4 := Join(s3, b);
    var s5 := Terminate(s4, b);
    var r4: seq<Step<T>> := [TerminateStep(b)];
    var r3 := [JoinStep(b)] + r4;
    var r2 := [CreateStep(b, 1)] + r3;
    var r1 := [DispatchStep] + r2;
    assert LegalRun(s5, []) && Run(s5, []) == s5 by { RunNothing(s5); }
    assert r4 == [TerminateStep(b)] + [];
    RunCons(s4, TerminateStep(b), []);
    RunCons(s3, JoinStep(b), r4);
    RunCons(s2, CreateStep(b, 1), r3);
    RunCons(s1, DispatchStep, r2);
    RunCons(s0, CreateStep(a, 1), r1);
    assert StrandingRun(a, b) == [CreateStep(a, 1)] + r1;
  }

  lemma {:induction false} RunNothing<T>(s: State<T>)
    ensures LegalRun(s, []) && Run(s, []) == s
  {}
}
