/** What the steps that scan whole queues do to each control block. */
module TaskEffects {
  import opened Ticks
  import opened TaskModel
  import opened TaskQueueInvariant

  function Woken<T>(task: Task<T>, wake: bool): Task<T> {
    if wake then task.(status := Ready, reason := NoReason) else task
  }

  function Freed<T>(task: Task<T>, free: bool): Task<T> {
    if free then task.(reason := NoReason) else task
  }

  lemma {:induction false} MoveEffect<T>(s: State<T>, t: T, task: Task<T>)
    requires t in s.tasks
    ensures Move(s, t, task) == s.(tasks := s.tasks[t := task], queues := Move(s, t, task).queues)
  {}

  /** The scan wakes the due sleepers of the pending queue and changes no other control block. */
  lemma {:induction false} ScanWakes<T>(s: State<T>, pending: seq<T>, woke: bool)
    ensures var (s', woke') := Scan(s, pending, woke);
            && s'.tasks.Keys == s.tasks.Keys
            && s' == s.(tasks := s'.tasks, queues := s'.queues, gate := s'.gate)
            && woke' == (woke || exists t :: t in pending && Due(s, t))
            && forall t :: t in s.tasks ==> s'.tasks[t] == Woken(s.tasks[t], t in pending && Due(s, t))
    decreases |pending|
  {
    hide Before;
    if pending != [] {
      var t, rest := pending[0], pending[1..];
      assert forall u :: u in pending <==> u == t || u in rest;
      if t !in s.tasks || s.tasks[t].reason != Sleeping {
        ScanWakes(s, rest, woke);
      } else if Before(s.tasks[t].wakeup, s.tick) {
        ScanWakes(WakeUp(s, t), rest, true);
        assert Due(s, t);
      } else if Before(s.tasks[t].wakeup, s.gate) {
        ScanWakes(s.(gate := s.tasks[t].wakeup), rest, woke);
      } else {
        ScanWakes(s, rest, woke);
      }
    }
  }

  lemma {:induction false} ReleaseWaitingEffect<T>(s: State<T>, t: T, pending: seq<T>)
    ensures var s' := ReleaseWaiting(s, t, pending);
            && s' == s.(tasks := s'.tasks, queues := s'.queues) && s'.tasks.Keys == s.tasks.Keys
            && forall u :: u in s.tasks ==> s'.tasks[u] == Woken(s.tasks[u], u in pending && JoinsOn(s.tasks[u], t))
    decreases |pending|
  {
    hide Move;
    if pending != [] {
      var u, rest := pending[0], pending[1..];
      assert forall v :: v in pending <==> v == u || v in rest;
      if u in s.tasks && JoinsOn(s.tasks[u], t) {
        MoveEffect(s, u, s.tasks[u].(status := Ready, reason := NoReason));
        ReleaseWaitingEffect(WakeUp(s, u), t, rest);
      } else {
        ReleaseWaitingEffect(s, t, rest);
      }
    }
  }

  lemma {:induction false} ReleaseSuspendedEffect<T>(s: State<T>, t: T, pending: seq<T>)
    ensures var s' := ReleaseSuspended(s, t, pending);
            && s' == s.(tasks := s'.tasks) && s'.tasks.Keys == s.tasks.Keys
            && forall u :: u in s.tasks ==> s'.tasks[u] == Freed(s.tasks[u], u in pending && JoinsOn(s.tasks[u], t))
    decreases |pending|
  {
    if pending != [] {
      var u, rest := pending[0], pending[1..];
      assert forall v :: v in pending <==> v == u || v in rest;
      if u in s.tasks && JoinsOn(s.tasks[u], t) {
        ReleaseSuspendedEffect(s.(tasks := s.tasks[u := s.tasks[u].(reason := NoReason)]), t, rest);
      } else {
        ReleaseSuspendedEffect(s, t, rest);
      }
    }
  }

  /** What retiring the task c does to the control block of u: every joiner of c, and nobody else, is
      released; a suspended one stays suspended but no longer waits. */
  function AfterRetire<T(==)>(s: State<T>, c: T, u: T): Task<T>
    requires u in s.tasks
  {
    var task := s.tasks[u];
    if u == c then task.(status := Dormant)
    else if JoinsOn(task, c) && task.status == Waiting then task.(status := Ready, reason := NoReason)
    else if JoinsOn(task, c) && task.status == Suspended then task.(reason := NoReason)
    else task
  }

  /** The step that makes a task DORMANT releases all its joiners and no other waiter. */
  lemma {:induction false} FinishReleases<T>(s: State<T>, u: T)
    requires Inv(s) && Legal(s, FinishStep(true)) && u in s.tasks
    ensures var s' := Finish(s, true);
            && s'.tasks.Keys == s.tasks.Keys && s'.tasks[u] == AfterRetire(s, s.current.value, u)
            && s'.tick == s.tick && s'.gate == s.gate
  {
    hide Inv, Move, ReleaseWaiting, ReleaseSuspended;
    var c := s.current.value;
    var done := s.tasks[c].(status := Dormant);
    var s0 := s.(switching := false, inVm := false);
    LeaveVm(s, c, done);
    MoveEffect(s0, c, done);
    var s1 := Move(s0, c, done);
    QueueIsStatus(s1, u, WAITING);
    ReleaseWaitingKeeps(s1, c, s1.queues[WAITING]);
    ReleaseWaitingEffect(s1, c, s1.queues[WAITING]);
    var s2 := ReleaseWaiting(s1, c, s1.queues[WAITING]);
    QueueIsStatus(s2, u, SUSPENDED);
    ReleaseSuspendedEffect(s2, c, s2.queues[SUSPENDED]);
  }

  /** Equal control blocks, the time slice aside. */
  predicate SameButSlice<T(==)>(a: Task<T>, b: Task<T>) {
    a.(timeslice := 0) == b.(timeslice := 0)
  }

  lemma {:induction false} AdvanceEffect<T>(s: State<T>)
    ensures var a := Advance(s);
            && a.tasks.Keys == s.tasks.Keys && a.tick == Plus(s.tick, 1)
            && a == s.(tick := a.tick, tasks := a.tasks, switching := a.switching)
            && forall t :: t in s.tasks ==> SameButSlice(a.tasks[t], s.tasks[t])
  {}

  /** A control block that a tick leaves alone, or that of a waiting sleeper it wakes. */
  predicate Ticked<T(==)>(task: Task<T>, task': Task<T>) {
    SameButSlice(task', task)
    || (task.status == Waiting && task.reason == Sleeping && SameButSlice(task', Woken(task, true)))
  }

  /** A tick wakes some waiting sleepers and changes nothing else but time slices. */
  lemma {:induction false} TickEffect<T>(s: State<T>)
    requires Inv(s)
    ensures var s' := Tick(s);
            && s'.tasks.Keys == s.tasks.Keys && s'.current == s.current && s'.inVm == s.inVm
            && forall t :: t in s.tasks ==> Ticked(s.tasks[t], s'.tasks[t])
  {
    hide Inv, Before, Scan, Advance;
    AdvanceEffect(s);
    AdvanceKeeps(s);
    var a := Advance(s);
    ScanWakes(a.(gate := Plus(a.tick, MAX_GATE)), a.queues[WAITING], false);
    forall t | t in s.tasks ensures Ticked(s.tasks[t], Tick(s).tasks[t]) {
      QueueIsStatus(a, t, WAITING);
    }
  }
}
