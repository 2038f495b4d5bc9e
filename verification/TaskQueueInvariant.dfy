/** Every step of the scheduler keeps the four queues disjoint, sorted and keyed by status. */
module TaskQueueInvariant {
  import opened Options
  import opened Ticks
  import opened TaskModel

  predicate IsRunning<T>(tasks: map<T, Task<T>>, t: T) {
    t in tasks && tasks[t].status == Running
  }

  predicate NoDuplicates<T(==)>(q: seq<T>) {
    forall i, j :: 0 <= i < j < |q| ==> q[i] != q[j]
  }

  /** a may stand before b. Only the RUNNING task can be out of place, once `Task.pass` has set its
      priority to 1: too far back, or too far forward if its priority was 0. */
  predicate MayPrecede<T>(tasks: map<T, Task<T>>, a: T, b: T) {
    Prio(tasks, a) <= Prio(tasks, b) || IsRunning(tasks, b) || (IsRunning(tasks, a) && Prio(tasks, a) == 1)
  }

  predicate InOrder<T>(q: seq<T>, tasks: map<T, Task<T>>) {
    forall i, j :: 0 <= i < j < |q| ==> MayPrecede(tasks, q[i], q[j])
  }

  /** Every task is in exactly the queue its status selects, and nowhere twice. */
  ghost predicate Filed<T>(s: State<T>) {
    && (forall t :: t in s.tasks ==> t in s.queues[Slot(s.tasks[t].status)])
    && (forall k, t :: 0 <= k < 4 && t in s.queues[k] ==> t in s.tasks && Slot(s.tasks[t].status) == k)
    && (forall k :: 0 <= k < 4 ==> NoDuplicates(s.queues[k]))
  }

  ghost predicate Sorted<T>(s: State<T>) {
    forall k :: 0 <= k < 4 ==> InOrder(s.queues[k], s.tasks)
  }

  /** Only the task in the virtual machine can be RUNNING; between turns none is. */
  ghost predicate OneRunning<T>(s: State<T>) {
    && (s.inVm ==> s.current.Some?)
    && (s.current.Some? ==> s.current.value in s.tasks)
    && (forall t :: t in s.tasks && s.tasks[t].status == Running ==> s.inVm && s.current == Some(t))
  }

  ghost predicate Inv<T>(s: State<T>) {
    Filed(s) && Sorted(s) && OneRunning(s)
  }

  // ---------------------------------------------------------------- queue edits

  lemma {:induction false} InsertionPointIs<T>(q: seq<T>, tasks: map<T, Task<T>>, p: nat, n: nat)
    requires n <= |q| && forall j :: 0 <= j < n ==> Prio(tasks, q[j]) <= p
    requires n < |q| ==> p < Prio(tasks, q[n])
    ensures InsertionPoint(q, tasks, p) == n
  {}

  lemma {:induction false} DequeueAt<T>(q: seq<T>, t: T) returns (i: nat)
    requires t in q
    ensures i < |q| && q[i] == t && Dequeue(q, t) == q[..i] + q[i + 1..]
  {
    if q[0] == t {
      i := 0;
    } else {
      i := DequeueAt(q[1..], t);
      i := i + 1;
      assert [q[0]] + (q[1..i] + q[i + 1..]) == q[..i] + q[i + 1..];
    }
  }

  lemma {:induction false} DequeueKeeps<T>(q: seq<T>, t: T) returns (i: nat)
    requires t in q && NoDuplicates(q)
    ensures i < |q| && q[i] == t && Dequeue(q, t) == q[..i] + q[i + 1..]
    ensures NoDuplicates(Dequeue(q, t)) && t !in Dequeue(q, t)
    ensures forall u :: u in Dequeue(q, t) <==> u in q && u != t
  {
    hide Dequeue;
    i := DequeueAt(q, t);
    var r := q[..i] + q[i + 1..];
    assert forall a :: 0 <= a < |r| ==> r[a] == q[if a < i then a else a + 1];
    forall u | u in q && u != t ensures u in r {
      var j :| 0 <= j < |q| && q[j] == u;
      assert r[if j < i then j else j - 1] == u;
    }
  }

  lemma {:induction false} DequeueSorted<T>(q: seq<T>, t: T, tasks: map<T, Task<T>>)
    requires t in q && NoDuplicates(q) && InOrder(q, tasks)
    ensures InOrder(Dequeue(q, t), tasks)
  {
    var i := DequeueKeeps(q, t);
    var r := q[..i] + q[i + 1..];
    forall a, b | 0 <= a < b < |r| ensures MayPrecede(tasks, r[a], r[b]) {
      assert r[a] == q[if a < i then a else a + 1] && r[b] == q[if b < i then b else b + 1];
    }
  }

  /** A task that is not RUNNING is linked in after its equals, and the queue stays in order. */
  lemma {:induction false} EnqueueKeeps<T>(q: seq<T>, t: T, tasks: map<T, Task<T>>)
    requires NoDuplicates(q) && t !in q && InOrder(q, tasks) && !IsRunning(tasks, t)
    ensures var e := Enqueue(q, tasks, t);
            NoDuplicates(e) && InOrder(e, tasks) && forall u :: u in e <==> u in q || u == t
  {
    var i := InsertionPoint(q, tasks, Prio(tasks, t));
    var e := Enqueue(q, tasks, t);
    assert e == q[..i] + [t] + q[i..];
    assert forall a :: 0 <= a < |e| ==> e[a] == if a < i then q[a] else if a == i then t else q[a - 1];
    forall a, b | 0 <= a < b < |e| ensures e[a] != e[b] && MayPrecede(tasks, e[a], e[b]) {
      if a == i && b > i + 1 {
        assert MayPrecede(tasks, q[i], q[b - 1]);
      }
    }
    forall u ensures u in e <==> u in q || u == t {
      if u in q {
        var j :| 0 <= j < |q| && q[j] == u;
        assert e[if j < i then j else j + 1] == u;
      }
      assert e[i] == t;
    }
  }

  lemma {:induction false} OrderFrame<T>(q: seq<T>, tasks: map<T, Task<T>>, tasks': map<T, Task<T>>)
    requires InOrder(q, tasks)
    requires forall u :: u in q ==> u in tasks && u in tasks'
    requires forall u :: u in q ==> tasks'[u].preemption == tasks[u].preemption
    requires forall u :: u in q && IsRunning(tasks, u) ==> IsRunning(tasks', u)
    ensures InOrder(q, tasks')
  {
    forall i, j | 0 <= i < j < |q| ensures MayPrecede(tasks', q[i], q[j]) {
      assert MayPrecede(tasks, q[i], q[j]);
    }
  }

  /** After a move t is in the queue of its new status and nowhere else; other tasks stay. */
  lemma {:induction false} MoveFiles<T>(s: State<T>, t: T, task: Task<T>, j: nat)
    requires Filed(s) && Sorted(s) && t in s.tasks && j < 4
    requires task.preemption == s.tasks[t].preemption && task.status != Running
    ensures var s' := Move(s, t, task);
            && NoDuplicates(s'.queues[j]) && InOrder(s'.queues[j], s'.tasks)
            && forall u :: u in s'.queues[j] <==> if u == t then j == Slot(task.status) else u in s.queues[j]
  {
    hide NoDuplicates, InOrder, Enqueue, Dequeue;
    var s' := Move(s, t, task);
    var k, k' := Slot(s.tasks[t].status), Slot(task.status);
    var i := DequeueKeeps(s.queues[k], t);
    DequeueSorted(s.queues[k], t, s.tasks);
    var removed := s.queues[k := Dequeue(s.queues[k], t)];
    assert t !in removed[j] && InOrder(removed[j], s.tasks);
    OrderFrame(removed[j], s.tasks, s'.tasks);
    if j == k' {
      EnqueueKeeps(removed[k'], t, s'.tasks);
    }
  }

  /** The shape shared by all queue edits keeps the invariant, whatever the new status. */
  lemma {:induction false} MoveKeeps<T>(s: State<T>, t: T, task: Task<T>)
    requires Inv(s) && t in s.tasks
    requires task.preemption == s.tasks[t].preemption && task.status != Running
    ensures Inv(Move(s, t, task))
  {
    hide NoDuplicates, InOrder, Enqueue, Dequeue;
    var s' := Move(s, t, task);
    forall j: nat | j < 4
      ensures NoDuplicates(s'.queues[j]) && InOrder(s'.queues[j], s'.tasks)
      ensures forall u :: u in s'.queues[j] <==> if u == t then j == Slot(task.status) else u in s.queues[j]
    {
      MoveFiles(s, t, task, j);
    }
    assert s'.tasks == s.tasks[t := task];
    assert Sorted(s');
    assert OneRunning(s');
    assert forall k :: 0 <= k < 4 ==> NoDuplicates(s'.queues[k]);
    assert forall k, u :: 0 <= k < 4 && u in s'.queues[k] ==> u in s'.tasks && Slot(s'.tasks[u].status) == k;
    forall u | u in s'.tasks ensures u in s'.queues[Slot(s'.tasks[u].status)] {
      if u != t { assert u in s.queues[Slot(s.tasks[u].status)]; }
    }
  }

  // ---------------------------------------------------------------- steps

  /** The clock, the gate and the request to switch play no part in the invariant. */
  lemma {:induction false} ClockFrame<T>(s: State<T>, tick: int, gate: int, switching: bool)
    requires Inv(s)
    ensures Inv(s.(tick := tick, gate := gate, switching := switching))
  {
    hide NoDuplicates, InOrder;
  }

  lemma {:induction false} ScanKeeps<T>(s: State<T>, pending: seq<T>, woke: bool)
    requires Inv(s)
    ensures Inv(Scan(s, pending, woke).0)
    decreases |pending|
  {
    hide Inv, Move;
    if pending != [] {
      var t := pending[0];
      if t !in s.tasks || s.tasks[t].reason != Sleeping {
        ScanKeeps(s, pending[1..], woke);
      } else if Before(s.tasks[t].wakeup, s.tick) {
        MoveKeeps(s, t, s.tasks[t].(status := Ready, reason := NoReason));
        ScanKeeps(WakeUp(s, t), pending[1..], true);
      } else if Before(s.tasks[t].wakeup, s.gate) {
        ClockFrame(s, s.tick, s.tasks[t].wakeup, s.switching);
        ScanKeeps(s.(gate := s.tasks[t].wakeup), pending[1..], woke);
      } else {
        ScanKeeps(s, pending[1..], woke);
      }
    }
  }

  lemma {:induction false} ReleaseWaitingKeeps<T>(s: State<T>, t: T, pending: seq<T>)
    requires Inv(s)
    ensures Inv(ReleaseWaiting(s, t, pending))
    decreases |pending|
  {
    hide Inv, Move;
    if pending != [] {
      if pending[0] in s.tasks && JoinsOn(s.tasks[pending[0]], t) {
        MoveKeeps(s, pending[0], s.tasks[pending[0]].(status := Ready, reason := NoReason));
        ReleaseWaitingKeeps(WakeUp(s, pending[0]), t, pending[1..]);
      } else {
        ReleaseWaitingKeeps(s, t, pending[1..]);
      }
    }
  }

  /** Rewriting a control block in place keeps the invariant if status and priority stay. */
  lemma {:induction false} RewriteKeeps<T>(s: State<T>, t: T, task: Task<T>)
    requires Inv(s) && t in s.tasks
    requires task.status == s.tasks[t].status && task.preemption == s.tasks[t].preemption
    ensures Inv(s.(tasks := s.tasks[t := task]))
  {
    hide NoDuplicates, InOrder;
    forall k | 0 <= k < 4 ensures InOrder(s.queues[k], s.tasks[t := task]) {
      OrderFrame(s.queues[k], s.tasks, s.tasks[t := task]);
    }
  }

  lemma {:induction false} ReleaseSuspendedKeeps<T>(s: State<T>, t: T, pending: seq<T>)
    requires Inv(s)
    ensures Inv(ReleaseSuspended(s, t, pending))
    decreases |pending|
  {
    hide Inv;
    if pending != [] {
      var u := pending[0];
      if u in s.tasks && JoinsOn(s.tasks[u], t) {
        var task := s.tasks[u].(reason := NoReason);
        RewriteKeeps(s, u, task);
        ReleaseSuspendedKeeps(s.(tasks := s.tasks[u := task]), t, pending[1..]);
      } else {
        ReleaseSuspendedKeeps(s, t, pending[1..]);
      }
    }
  }

  lemma {:induction false} AdvanceKeeps<T>(s: State<T>)
    requires Inv(s)
    ensures Inv(Advance(s))
  {
    hide Inv;
    var s1 := s.(tick := Plus(s.tick, 1));
    ClockFrame(s, s1.tick, s.gate, s.switching);
    if s.queues[READY] != [] {
      var h := s.queues[READY][0];
      if h in s.tasks && s.tasks[h].timeslice != 0 {
        var task := s.tasks[h].(timeslice := s.tasks[h].timeslice - 1);
        RewriteKeeps(s1, h, task);
        var s2 := s1.(tasks := s.tasks[h := task]);
        ClockFrame(s2, s2.tick, s2.gate, s.switching || s.tasks[h].timeslice == 1);
      }
    }
  }

  lemma {:induction false} CreateKeeps<T>(s: State<T>, t: T, priority: int)
    requires Inv(s) && t !in s.tasks
    ensures Inv(Create(s, t, priority))
  {
    hide Filed, Sorted, Enqueue, NoDuplicates, InOrder;
    var tasks := Create(s, t, priority).tasks;
    var q := Enqueue(s.queues[READY], tasks, t);
    var s' := s.(tasks := tasks, queues := s.queues[READY := q]);
    var _ := AddSorts(s, t, tasks[t]);
    AddFiles(s, t, tasks[t]);
    ClockFrame(s', s'.tick, s'.gate, true);
  }

  lemma {:induction false} AddSorts<T>(s: State<T>, t: T, task: Task<T>) returns (q: seq<T>)
    requires Filed(s) && Sorted(s) && t !in s.tasks && task.status == Ready
    ensures q == Enqueue(s.queues[READY], s.tasks[t := task], t) && NoDuplicates(q)
    ensures Sorted(s.(tasks := s.tasks[t := task], queues := s.queues[READY := q]))
    ensures forall u :: u in q <==> u in s.queues[READY] || u == t
  {
    hide NoDuplicates, InOrder, Enqueue;
    forall k | 0 <= k < 4 ensures InOrder(s.queues[k], s.tasks[t := task]) {
      OrderFrame(s.queues[k], s.tasks, s.tasks[t := task]);
    }
    EnqueueKeeps(s.queues[READY], t, s.tasks[t := task]);
    q := Enqueue(s.queues[READY], s.tasks[t := task], t);
  }

  lemma {:induction false} AddFiles<T>(s: State<T>, t: T, task: Task<T>)
    requires Filed(s) && Sorted(s) && t !in s.tasks && task.status == Ready
    ensures var tasks := s.tasks[t := task];
            Filed(s.(tasks := tasks, queues := s.queues[READY := Enqueue(s.queues[READY], tasks, t)]))
  {
    hide NoDuplicates, InOrder, InsertAt, InsertionPoint, Sorted;
    var q := AddSorts(s, t, task);
    var tasks := s.tasks[t := task];
    var s' := s.(tasks := tasks, queues := s.queues[READY := q]);
    forall u | u in s'.tasks ensures u in s'.queues[Slot(s'.tasks[u].status)] {
      if u != t { assert u in s.queues[Slot(s.tasks[u].status)]; }
    }
  }

  lemma {:induction false} PassKeeps<T>(s: State<T>)
    requires Inv(s) && Legal(s, PassStep)
    ensures Inv(Pass(s))
  {
    var s' := Pass(s);
    forall k, i, j | 0 <= k < 4 && 0 <= i < j < |s.queues[k]|
      ensures MayPrecede(s'.tasks, s.queues[k][i], s.queues[k][j])
    {
      assert MayPrecede(s.tasks, s.queues[k][i], s.queues[k][j]);
    }
  }

  lemma {:induction false} DispatchKeeps<T>(s: State<T>)
    requires Inv(s) && Legal(s, DispatchStep)
    ensures Inv(Dispatch(s))
  {
    var s' := Dispatch(s);
    forall k | 0 <= k < 4 ensures InOrder(s.queues[k], s'.tasks) {
      OrderFrame(s.queues[k], s.tasks, s'.tasks);
    }
  }

  /** Leaving the virtual machine is harmless once the current task is no longer RUNNING. */
  lemma {:induction false} LeaveVm<T>(s: State<T>, t: T, task: Task<T>)
    requires Inv(s) && s.current == Some(t) && t in s.tasks
    requires task.preemption == s.tasks[t].preemption && task.status != Running
    ensures Inv(Move(s.(switching := false, inVm := false), t, task))
  {
    hide Filed, Sorted;
    MoveKeeps(s, t, task);
    var m := Move(s, t, task);
    assert Move(s.(switching := false, inVm := false), t, task) == m.(switching := false, inVm := false);
    FiledSortedFrame(m, m.(switching := false, inVm := false));
  }

  lemma {:induction false} FiledSortedFrame<T>(s: State<T>, s': State<T>)
    requires Filed(s) && Sorted(s) && s'.tasks == s.tasks && s'.queues == s.queues
    ensures Filed(s') && Sorted(s')
  {
    hide NoDuplicates, InOrder;
  }

  lemma {:induction false} FinishKeeps<T>(s: State<T>, stopped: bool)
    requires Inv(s) && Legal(s, FinishStep(stopped))
    ensures Inv(Finish(s, stopped))
  {
    hide Filed, Sorted, Move, ReleaseWaiting, ReleaseSuspended;
    var c := s.current.value;
    if stopped {
      var done := s.tasks[c].(status := Dormant);
      LeaveVm(s, c, done);
      var s1 := Move(s.(switching := false, inVm := false), c, done);
      ReleaseWaitingKeeps(s1, c, s1.queues[WAITING]);
      var s2 := ReleaseWaiting(s1, c, s1.queues[WAITING]);
      ReleaseSuspendedKeeps(s2, c, s2.queues[SUSPENDED]);
    } else if s.tasks[c].status == Running {
      LeaveVm(s, c, s.tasks[c].(status := Ready));
    } else {
      FiledSortedFrame(s, s.(switching := false, inVm := false));
    }
  }

  lemma {:induction false} TickKeeps<T>(s: State<T>)
    requires Inv(s)
    ensures Inv(Tick(s))
  {
    hide Inv, Advance, Scan;
    AdvanceKeeps(s);
    var a := Advance(s);
    var rescan := a.(gate := Plus(a.tick, MAX_GATE));
    ClockFrame(a, a.tick, rescan.gate, a.switching);
    ScanKeeps(rescan, a.queues[WAITING], false);
    var r := Scan(rescan, a.queues[WAITING], false).0;
    ClockFrame(r, r.tick, r.gate, true);
  }

  lemma {:induction false} SleepKeeps<T>(s: State<T>, ms: int)
    requires Inv(s) && Legal(s, SleepStep(ms))
    ensures Inv(SleepMs(s, ms))
  {
    hide NoDuplicates, InOrder, Move;
    var t := s.queues[READY][0];
    MoveKeeps(s, t, s.tasks[t].(status := Waiting, reason := Sleeping, wakeup := Plus(s.tick, TicksFor(ms))));
  }

  lemma {:induction false} ResumeKeeps<T>(s: State<T>, t: T)
    requires Inv(s) && t in s.tasks
    ensures Inv(Resume(s, t))
  {
    hide Inv, Move;
    ClockFrame(s, s.tick, s.gate, true);
    MoveKeeps(Preempt(s), t, s.tasks[t].(status := Ready));
    MoveKeeps(s, t, s.tasks[t].(status := Waiting));
    var s' := Move(s, t, s.tasks[t].(status := Waiting));
    ClockFrame(s', s'.tick, s.tasks[t].wakeup, s'.switching);
  }

  lemma {:induction false} JoinKeeps<T>(s: State<T>, t: T)
    requires Inv(s) && Legal(s, JoinStep(t))
    ensures Inv(Join(s, t))
  {
    hide NoDuplicates, InOrder, Move;
    var c := s.current.value;
    MoveKeeps(s, c, s.tasks[c].(status := Waiting, reason := Joining, joined := Some(t)));
  }

  lemma {:induction false} SuspendKeeps<T>(s: State<T>, t: T)
    requires Inv(s) && t in s.tasks
    ensures Inv(Suspend(s, t))
  {
    hide NoDuplicates, InOrder, Move;
    MoveKeeps(s, t, s.tasks[t].(status := Suspended));
  }

  lemma {:induction false} TerminateKeeps<T>(s: State<T>, t: T)
    requires Inv(s) && t in s.tasks
    ensures Inv(Terminate(s, t))
  {
    hide NoDuplicates, InOrder, Move;
    MoveKeeps(s, t, s.tasks[t].(status := Dormant));
  }

  /** Every legal step keeps the queues filed by status, duplicate-free and sorted, with at most one
      RUNNING task. */
  lemma {:induction false} StepKeeps<T>(s: State<T>, step: Step<T>)
    requires Inv(s) && Legal(s, step)
    ensures Inv(Apply(s, step))
  {
    hide Inv, Tick, Create, SleepMs, Suspend, Resume, Terminate, Join, Pass, Dispatch, Finish;
    match step
    case TickStep => TickKeeps(s);
    case CreateStep(t, p) => CreateKeeps(s, t, p);
    case SleepStep(ms) => SleepKeeps(s, ms);
    case SuspendStep(t) => SuspendKeeps(s, t);
    case ResumeStep(t) => ResumeKeeps(s, t);
    case TerminateStep(t) => TerminateKeeps(s, t);
    case JoinStep(t) => JoinKeeps(s, t);
    case PassStep => PassKeeps(s);
    case DispatchStep => DispatchKeeps(s);
    case FinishStep(stopped) => FinishKeeps(s, stopped);
  }

  /** Over every run from the initial state the invariant holds, so `q_delete_task` always finds its task. */
  lemma {:induction false} RunKeeps<T>(s: State<T>, steps: seq<Step<T>>)
    requires Inv(s) && LegalRun(s, steps)
    ensures Inv(Run(s, steps))
    decreases |steps|
  {
    if steps != [] {
      StepKeeps(s, steps[0]);
      RunKeeps(Apply(s, steps[0]), steps[1..]);
    }
  }

  /** A queue holds exactly the tasks whose status selects it. */
  lemma {:induction false} QueueIsStatus<T>(s: State<T>, t: T, k: nat)
    requires Inv(s) && t in s.tasks && k < 4
    ensures t in s.queues[k] <==> Slot(s.tasks[t].status) == k
  {
    hide Sorted, NoDuplicates;
  }

  lemma {:induction false} InitialInv<T>()
    ensures Inv(Initial<T>())
  {}
}
