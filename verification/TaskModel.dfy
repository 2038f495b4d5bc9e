/** The task scheduler as a state machine on values: one step per API call, tick or turn of the run loop.
    A task is named by a value of type T. */
module TaskModel {
  import opened Options
  import opened Ticks

  datatype Status = Dormant | Ready | Running | Waiting | Suspended

  datatype Reason = NoReason | Sleeping | Joining

  datatype Task<T> = Task(
    priority: nat, preemption: nat, timeslice: nat, status: Status, reason: Reason,
    wakeup: int, joined: Option<T>)

  /** The dormant, ready, waiting and suspended queues, in this order. */
  type Queues<T> = q: seq<seq<T>> | |q| == 4 witness [[], [], [], []]

  datatype State<T(==)> = State(
    tasks: map<T, Task<T>>, queues: Queues<T>, tick: int, gate: int, switching: bool,
    current: Option<T>, inVm: bool)

  const READY := 1
  const WAITING := 2
  const SUSPENDED := 3

  const TICK_UNIT := 4
  const TIMESLICE_TICK_COUNT := 3
  const MAX_GATE := 0x1_0000

  function Initial<T>(): State<T> {
    State(map[], [[], [], [], []], 0, MAX_GATE, false, None, false)
  }

  /** The queue a status selects. */
  function Slot(s: Status): (k: nat)
    ensures k < 4
  {
    match s
    case Dormant => 0
    case Ready => READY
    case Running => READY
    case Waiting => WAITING
    case Suspended => SUSPENDED
  }

  function Prio<T>(tasks: map<T, Task<T>>, t: T): nat {
    if t in tasks then tasks[t].preemption else 0
  }

  /** Index of the first queued task that the priority p precedes. */
  function InsertionPoint<T>(q: seq<T>, tasks: map<T, Task<T>>, p: nat): (i: nat)
    ensures i <= |q|
    ensures forall j :: 0 <= j < i ==> Prio(tasks, q[j]) <= p
    ensures i < |q| ==> p < Prio(tasks, q[i])
  {
    if q == [] || p < Prio(tasks, q[0]) then 0 else 1 + InsertionPoint(q[1..], tasks, p)
  }

  function InsertAt<T>(q: seq<T>, i: nat, t: T): (r: seq<T>)
    requires i <= |q|
    ensures |r| == |q| + 1 && r[i] == t
  {
    q[..i] + [t] + q[i..]
  }

  function Enqueue<T>(q: seq<T>, tasks: map<T, Task<T>>, t: T): seq<T> {
    InsertAt(q, InsertionPoint(q, tasks, Prio(tasks, t)), t)
  }

  function Dequeue<T(==)>(q: seq<T>, t: T): (r: seq<T>)
    ensures t !in q ==> r == q
  {
    if q == [] then [] else if q[0] == t then q[1..] else [q[0]] + Dequeue(q[1..], t)
  }

  /** Unlink t from the queue of its old status, rewrite its control block, link it into the queue
      of its new status: the shape of every queue edit of the scheduler. */
  function Move<T>(s: State<T>, t: T, task: Task<T>): State<T>
    requires t in s.tasks
  {
    var k := Slot(s.tasks[t].status);
    var removed := s.queues[k := Dequeue(s.queues[k], t)];
    var tasks := s.tasks[t := task];
    var k' := Slot(task.status);
    s.(tasks := tasks, queues := removed[k' := Enqueue(removed[k'], tasks, t)])
  }

  /** Some task of the queue is RUNNING: what `preempt_running_task` looks for. */
  predicate HasRunning<T>(q: seq<T>, tasks: map<T, Task<T>>) {
    exists t :: t in q && t in tasks && tasks[t].status == Running
  }

  function Preempt<T>(s: State<T>): State<T> {
    if HasRunning(s.queues[READY], s.tasks) then s.(switching := true) else s
  }

  // ---------------------------------------------------------------- tick

  function WakeUp<T>(s: State<T>, t: T): State<T>
    requires t in s.tasks
  {
    Move(s, t, s.tasks[t].(status := Ready, reason := NoReason))
  }

  predicate Due<T>(s: State<T>, t: T) {
    t in s.tasks && s.tasks[t].reason == Sleeping && Before(s.tasks[t].wakeup, s.tick)
  }

  /** The scan of the waiting queue; `pending` is what is left of the queue as it was at the start. */
  function Scan<T>(s: State<T>, pending: seq<T>, woke: bool): (State<T>, bool)
    decreases |pending|
  {
    if pending == [] then (s, woke)
    else
      var t := pending[0];
      if t !in s.tasks || s.tasks[t].reason != Sleeping then Scan(s, pending[1..], woke)
      else if Before(s.tasks[t].wakeup, s.tick) then Scan(WakeUp(s, t), pending[1..], true)
      else if Before(s.tasks[t].wakeup, s.gate) then
        Scan(s.(gate := s.tasks[t].wakeup), pending[1..], woke)
      else Scan(s, pending[1..], woke)
  }

  /** A scan from a fresh gate, followed by the request to switch if a task woke. */
  function WakeSleepers<T>(s: State<T>): State<T> {
    var (s', woke) := Scan(s.(gate := Plus(s.tick, MAX_GATE)), s.queues[WAITING], false);
    if woke then Preempt(s') else s'
  }

  /** The clock advances and the head of the ready queue loses one tick of its time slice. */
  function Advance<T>(s: State<T>): State<T> {
    var s := s.(tick := Plus(s.tick, 1));
    if s.queues[READY] == [] then s
    else
      var h := s.queues[READY][0];
      if h !in s.tasks || s.tasks[h].timeslice == 0 then s
      else
        s.(tasks := s.tasks[h := s.tasks[h].(timeslice := s.tasks[h].timeslice - 1)],
           switching := s.switching || s.tasks[h].timeslice == 1)
  }

  /** The tick handler: the waiting queue is scanned only once the gate has passed. */
  function Tick<T>(s: State<T>): State<T> {
    var s := Advance(s);
    if Before(s.gate, s.tick) then WakeSleepers(s) else s
  }

  /** The reference tick: the waiting queue is scanned every time. */
  function TickAlways<T>(s: State<T>): State<T> {
    WakeSleepers(Advance(s))
  }

  // ---------------------------------------------------------------- calls

  function Create<T>(s: State<T>, t: T, priority: int): State<T>
    requires t !in s.tasks
  {
    var p := priority % 256;
    var tasks := s.tasks[t := Task(p, p, 0, Ready, NoReason, 0, None)];
    Preempt(s.(tasks := tasks, queues := s.queues[READY := Enqueue(s.queues[READY], tasks, t)]))
  }

  /** Milliseconds to ticks: division truncates toward zero, and any remainder adds one tick. */
  function TicksFor(ms: int): (n: int)
    ensures ms >= 0 ==> ms <= n * TICK_UNIT < ms + TICK_UNIT
    ensures ms < 0 ==> ms < n * TICK_UNIT + TICK_UNIT && n <= 1
  {
    (if ms >= 0 then ms / TICK_UNIT else -((-ms) / TICK_UNIT)) + (if ms % TICK_UNIT != 0 then 1 else 0)
  }

  /** Lower the gate to a sleeper's deadline. */
  function LowerGate<T>(s: State<T>, deadline: int): State<T> {
    if Before(deadline, s.gate) then s.(gate := deadline) else s
  }

  /** `sleep_ms_impl`: it is the head of the ready queue that is put to sleep. */
  function SleepMs<T>(s: State<T>, ms: int): State<T>
    requires s.queues[READY] != [] && s.queues[READY][0] in s.tasks
  {
    var t := s.queues[READY][0];
    var deadline := Plus(s.tick, TicksFor(ms));
    LowerGate(Move(s, t, s.tasks[t].(status := Waiting, reason := Sleeping, wakeup := deadline)), deadline)
      .(switching := true)
  }

  function Suspend<T>(s: State<T>, t: T): State<T>
    requires t in s.tasks
  {
    if s.tasks[t].status == Suspended then s
    else Move(s, t, s.tasks[t].(status := Suspended)).(switching := true)
  }

  function Resume<T>(s: State<T>, t: T): State<T>
    requires t in s.tasks
  {
    if s.tasks[t].status != Suspended then s
    else if s.tasks[t].reason == NoReason then Move(Preempt(s), t, s.tasks[t].(status := Ready))
    else
      var s' := Move(s, t, s.tasks[t].(status := Waiting));
      if s.tasks[t].reason == Sleeping then LowerGate(s', s.tasks[t].wakeup) else s'
  }

  function Terminate<T>(s: State<T>, t: T): State<T>
    requires t in s.tasks
  {
    if s.tasks[t].status == Dormant then s else Move(s, t, s.tasks[t].(status := Dormant))
  }

  /** The current task waits for the target, unless the target is done or is the caller itself
      (where the original raises). */
  function Join<T>(s: State<T>, target: T): State<T>
    requires target in s.tasks
    requires s.current.Some? && s.current.value in s.tasks
  {
    var c := s.current.value;
    if target == c || s.tasks[target].status == Dormant then s
    else
      Move(s, c, s.tasks[c].(status := Waiting, reason := Joining, joined := Some(target)))
        .(switching := true)
  }

  /** `Task.pass` rewrites the effective priority in place. */
  function Pass<T>(s: State<T>): State<T>
    requires s.current.Some? && s.current.value in s.tasks
  {
    var c := s.current.value;
    s.(tasks := s.tasks[c := s.tasks[c].(timeslice := 0, preemption := 1)])
  }

  // ---------------------------------------------------------------- run loop

  /** The loop head: the first ready task is given the processor. */
  function Dispatch<T>(s: State<T>): State<T>
    requires s.queues[READY] != [] && s.queues[READY][0] in s.tasks
  {
    var t := s.queues[READY][0];
    s.(tasks := s.tasks[t := s.tasks[t].(status := Running, timeslice := TIMESLICE_TICK_COUNT)],
       current := Some(t), inVm := true)
  }

  predicate JoinsOn<T(==)>(task: Task<T>, t: T) {
    task.reason == Joining && task.joined == Some(t)
  }

  /** Waiting tasks that joined t become ready; `pending` is what is left of the waiting queue. */
  function ReleaseWaiting<T>(s: State<T>, t: T, pending: seq<T>): State<T>
    decreases |pending|
  {
    if pending == [] then s
    else if pending[0] in s.tasks && JoinsOn(s.tasks[pending[0]], t) then
      ReleaseWaiting(WakeUp(s, pending[0]), t, pending[1..])
    else ReleaseWaiting(s, t, pending[1..])
  }

  /** Suspended tasks that joined t lose their reason to wait. */
  function ReleaseSuspended<T>(s: State<T>, t: T, pending: seq<T>): State<T>
    decreases |pending|
  {
    if pending == [] then s
    else
      var u := pending[0];
      if u in s.tasks && JoinsOn(s.tasks[u], t) then
        ReleaseSuspended(s.(tasks := s.tasks[u := s.tasks[u].(reason := NoReason)]), t, pending[1..])
      else ReleaseSuspended(s, t, pending[1..])
  }

  /** What follows `mrb_vm_exec`: a stopped task is retired and its joiners released, a task that is
      still RUNNING goes to the back of its priority. */
  function Finish<T>(s: State<T>, stopped: bool): State<T>
    requires s.current.Some? && s.current.value in s.tasks
  {
    var c := s.current.value;
    var s := s.(switching := false, inVm := false);
    if stopped then
      var s1 := Move(s, c, s.tasks[c].(status := Dormant));
      var s2 := ReleaseWaiting(s1, c, s1.queues[WAITING]);
      ReleaseSuspended(s2, c, s2.queues[SUSPENDED])
    else if s.tasks[c].status == Running then Move(s, c, s.tasks[c].(status := Ready))
    else s
  }

  // ---------------------------------------------------------------- runs

  datatype Step<T> =
    | TickStep
    | CreateStep(task: T, priority: int)
    | SleepStep(ms: int)
    | SuspendStep(task: T)
    | ResumeStep(task: T)
    | TerminateStep(task: T)
    | JoinStep(task: T)
    | PassStep
    | DispatchStep
    | FinishStep(stopped: bool)

  /** What the callers of each step provide: the named task exists, the virtual machine runs exactly
      between a dispatch and its finish, and a task passes only while it is RUNNING. */
  predicate Legal<T>(s: State<T>, step: Step<T>) {
    match step
    case TickStep => true
    case CreateStep(t, _) => t !in s.tasks
    case SleepStep(_) => s.inVm && s.queues[READY] != [] && s.queues[READY][0] in s.tasks
    case SuspendStep(t) => t in s.tasks
    case ResumeStep(t) => t in s.tasks
    case TerminateStep(t) => t in s.tasks
    case JoinStep(t) => s.inVm && t in s.tasks && s.current.Some? && s.current.value in s.tasks
    case PassStep =>
      s.inVm && s.current.Some? && s.current.value in s.tasks && s.tasks[s.current.value].status == Running
    case DispatchStep => !s.inVm && s.queues[READY] != [] && s.queues[READY][0] in s.tasks
    case FinishStep(_) => s.inVm && s.current.Some? && s.current.value in s.tasks
  }

  function Apply<T>(s: State<T>, step: Step<T>): State<T>
    requires Legal(s, step)
  {
    match step
    case TickStep => Tick(s)
    case CreateStep(t, p) => Create(s, t, p)
    case SleepStep(ms) => SleepMs(s, ms)
    case SuspendStep(t) => Suspend(s, t)
    case ResumeStep(t) => Resume(s, t)
    case TerminateStep(t) => Terminate(s, t)
    case JoinStep(t) => Join(s, t)
    case PassStep => Pass(s)
    case DispatchStep => Dispatch(s)
    case FinishStep(stopped) => Finish(s, stopped)
  }

  predicate LegalRun<T>(s: State<T>, steps: seq<Step<T>>)
    decreases |steps|
  {
    steps == [] || (Legal(s, steps[0]) && LegalRun(Apply(s, steps[0]), steps[1..]))
  }

  function Run<T>(s: State<T>, steps: seq<Step<T>>): State<T>
    requires LegalRun(s, steps)
    decreases |steps|
  {
    if steps == [] then s else Run(Apply(s, steps[0]), steps[1..])
  }
}
