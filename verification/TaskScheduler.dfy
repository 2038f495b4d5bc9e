/** The scheduler as the original keeps it: four linked queues, relinked in place. The control blocks
    and their `next` links live in tables indexed by task. Every method is proved to take the step of
    `TaskModel` that bears its name. */
module TaskScheduler {
  import opened Options
  import opened Ticks
  import opened TaskModel
  import opened TaskQueueInvariant

  /** The i-th node of q, or none past its end. */
  function At<T>(q: seq<T>, i: nat): Option<T> {
    if i < |q| then Some(q[i]) else None
  }

  /** From head, the links lead through the nodes of q in order and end. */
  predicate Chain<T(==)>(head: Option<T>, next: map<T, Option<T>>, q: seq<T>) {
    head == At(q, 0) && forall i :: 0 <= i < |q| ==> q[i] in next && next[q[i]] == At(q, i + 1)
  }

  lemma {:induction false} ChainFrame<T>(head: Option<T>, next: map<T, Option<T>>, next': map<T, Option<T>>, q: seq<T>)
    requires Chain(head, next, q) && forall t :: t in q ==> t in next' && next'[t] == next[t]
    ensures Chain(head, next', q)
  {}

  /** Linking t behind the first i nodes. */
  lemma {:induction false} ChainInserted<T>(head: Option<T>, next: map<T, Option<T>>, q: seq<T>, i: nat, t: T)
    requires Chain(head, next, q) && i <= |q| && t !in q && NoDuplicates(q)
    ensures var next' := if i == 0 then next[t := head] else next[t := next[q[i - 1]]][q[i - 1] := Some(t)];
            Chain(if i == 0 then Some(t) else head, next', InsertAt(q, i, t))
  {
    var next' := if i == 0 then next[t := head] else next[t := next[q[i - 1]]][q[i - 1] := Some(t)];
    var e := InsertAt(q, i, t);
    forall a | 0 <= a < |e| ensures e[a] in next' && next'[e[a]] == At(e, a + 1) {
      assert e[a] == if a < i then q[a] else if a == i then t else q[a - 1];
      assert a + 1 < |e| ==> e[a + 1] == if a + 1 < i then q[a + 1] else if a + 1 == i then t else q[a];
    }
  }

  /** Unlinking node i. */
  lemma {:induction false} ChainRemoved<T>(head: Option<T>, next: map<T, Option<T>>, q: seq<T>, i: nat)
    requires Chain(head, next, q) && i < |q| && NoDuplicates(q)
    ensures var next' := if i == 0 then next[q[i] := None] else next[q[i - 1] := next[q[i]]][q[i] := None];
            Chain(if i == 0 then next[q[i]] else head, next', q[..i] + q[i + 1..])
  {
    var next' := if i == 0 then next[q[i] := None] else next[q[i - 1] := next[q[i]]][q[i] := None];
    var r := q[..i] + q[i + 1..];
    forall a | 0 <= a < |r| ensures r[a] in next' && next'[r[a]] == At(r, a + 1) {
      assert r[a] == if a < i then q[a] else q[a + 1];
      assert a + 1 < |r| ==> r[a + 1] == if a + 1 < i then q[a + 1] else q[a + 2];
    }
  }

  /** List k is well linked and holds the tasks of queue k, whose statuses select it. */
  predicate ListOk<T(==)>(
    tasks: map<T, Task<T>>, next: map<T, Option<T>>, head: Option<T>, q: seq<T>, k: nat)
  {
    && (forall t :: t in q ==> t in tasks && Slot(tasks[t].status) == k)
    && NoDuplicates(q)
    && Chain(head, next, q)
  }

  ghost predicate Linked<T>(
    tasks: map<T, Task<T>>, next: map<T, Option<T>>, heads: seq<Option<T>>, queues: Queues<T>)
  {
    |heads| == 4 && forall k :: 0 <= k < 4 ==> ListOk(tasks, next, heads[k], queues[k], k)
  }

  lemma {:induction false} ListInserted<T>(
    tasks: map<T, Task<T>>, next: map<T, Option<T>>, head: Option<T>, q: seq<T>, k: nat, i: nat, t: T)
    requires ListOk(tasks, next, head, q, k) && i <= |q| && t !in q && t in tasks && Slot(tasks[t].status) == k
    ensures var next' := if i == 0 then next[t := head] else next[t := next[q[i - 1]]][q[i - 1] := Some(t)];
            ListOk(tasks, next', if i == 0 then Some(t) else head, InsertAt(q, i, t), k)
  {
    hide Chain, InsertAt;
    ChainInserted(head, next, q, i, t);
    InsertedDistinct(q, i, t);
  }

  lemma {:induction false} InsertedDistinct<T>(q: seq<T>, i: nat, t: T)
    requires NoDuplicates(q) && i <= |q| && t !in q
    ensures NoDuplicates(InsertAt(q, i, t)) && forall u :: u in InsertAt(q, i, t) <==> u == t || u in q
  {
    var e := InsertAt(q, i, t);
    assert forall a :: 0 <= a < |e| ==> e[a] == if a < i then q[a] else if a == i then t else q[a - 1];
    assert e[i] == t;
    assert forall b :: 0 <= b < |q| ==> q[b] == e[if b < i then b else b + 1];
  }

  lemma {:induction false} ListRemoved<T>(
    tasks: map<T, Task<T>>, next: map<T, Option<T>>, head: Option<T>, q: seq<T>, k: nat, t: T) returns (i: nat)
    requires ListOk(tasks, next, head, q, k) && t in q
    ensures i < |q| && q[i] == t && (head == Some(t) <==> i == 0)
    ensures var next' := if i == 0 then next[t := None] else next[q[i - 1] := next[t]][t := None];
            ListOk(tasks, next', if i == 0 then next[t] else head, Dequeue(q, t), k)
  {
    i := DequeueKeeps(q, t);
    ChainRemoved(head, next, q, i);
  }

  /** A change of the links of list k leaves the other lists as they were. */
  lemma {:induction false} OthersLinked<T>(
    tasks: map<T, Task<T>>, next: map<T, Option<T>>, next': map<T, Option<T>>, heads: seq<Option<T>>,
    queues: Queues<T>, k: nat, head: Option<T>, q: seq<T>)
    requires Linked(tasks, next, heads, queues) && k < 4 && ListOk(tasks, next', head, q, k)
    requires forall t :: t in next && t in tasks && Slot(tasks[t].status) != k ==> t in next' && next'[t] == next[t]
    ensures Linked(tasks, next', heads[k := head], queues[k := q])
  {
    forall l | 0 <= l < 4 && l != k ensures ListOk(tasks, next', heads[l], queues[l], l) {
      assert ListOk(tasks, next, heads[l], queues[l], l);
      ChainFrame(heads[l], next, next', queues[l]);
    }
  }

  ghost predicate AllListed<T>(tasks: map<T, Task<T>>, queues: Queues<T>) {
    forall t :: t in tasks ==> t in queues[Slot(tasks[t].status)]
  }

  lemma {:induction false} LinkedInsert<T>(
    tasks: map<T, Task<T>>, next: map<T, Option<T>>, heads: seq<Option<T>>, queues: Queues<T>, k: nat, i: nat, t: T)
    requires Linked(tasks, next, heads, queues) && k < 4 && t in tasks && Slot(tasks[t].status) == k
    requires t !in queues[k] && i <= |queues[k]| && (0 < i ==> queues[k][i - 1] in next)
    ensures var q := queues[k];
            var next' := if i == 0 then next[t := heads[k]] else next[t := next[q[i - 1]]][q[i - 1] := Some(t)];
            var head := if i == 0 then Some(t) else heads[k];
            Linked(tasks, next', heads[k := head], queues[k := InsertAt(q, i, t)])
  {
    hide NoDuplicates, InsertAt, Chain;
    var q := queues[k];
    assert ListOk(tasks, next, heads[k], q, k);
    var next' := if i == 0 then next[t := heads[k]] else next[t := next[q[i - 1]]][q[i - 1] := Some(t)];
    ListInserted(tasks, next, heads[k], q, k, i, t);
    OthersLinked(tasks, next, next', heads, queues, k, if i == 0 then Some(t) else heads[k], InsertAt(q, i, t));
  }

  class Scheduler<T(==)> {
    var tasks: map<T, Task<T>>
    var next: map<T, Option<T>>
    var heads: seq<Option<T>>
    var tick: int
    var gate: int
    var switching: bool
    var current: Option<T>
    ghost var inVm: bool
    ghost var queues: Queues<T>

    /** The lists are well linked, and every task is in the list its status selects. */
    ghost predicate Valid()
      reads this
    {
      && Linked(tasks, next, heads, queues)
      && AllListed(tasks, queues)
      && (current.Some? ==> current.value in tasks)
    }

    /** The abstract state. */
    ghost function Abs(): State<T>
      reads this
    {
      State(tasks, queues, tick, gate, switching, current, inVm)
    }

    constructor ()
      ensures Valid() && Abs() == Initial<T>()
    {
      tasks, next, heads := map[], map[], [None, None, None, None];
      tick, gate, switching, current := 0, MAX_GATE, false, None;
      inVm, queues := false, [[], [], [], []];
    }

    lemma {:induction false} ListHead(k: nat)
      requires Linked(tasks, next, heads, queues) && k < 4
      ensures |heads| == 4 && heads[k] == At(queues[k], 0) && NoDuplicates(queues[k])
      ensures queues[k] != [] ==> queues[k][0] in tasks && Slot(tasks[queues[k][0]].status) == k
    {
      hide NoDuplicates;
      assert ListOk(tasks, next, heads[k], queues[k], k);
    }

    lemma {:induction false} ListNode(k: nat, i: nat)
      requires Linked(tasks, next, heads, queues) && k < 4 && i < |queues[k]|
      ensures var t := queues[k][i];
              t in tasks && Slot(tasks[t].status) == k && t in next && next[t] == At(queues[k], i + 1)
    {
      hide NoDuplicates;
      assert ListOk(tasks, next, heads[k], queues[k], k);
    }

    /** The node of list k behind which t belongs. */
    method FindPlace(k: nat, t: T) returns (p: T, ghost i: nat)
      requires Linked(tasks, next, heads, queues) && t in tasks && k < 4 && queues[k] != []
      requires tasks[queues[k][0]].preemption <= tasks[t].preemption
      ensures 1 <= i <= |queues[k]| && p == queues[k][i - 1] && p in next && next[p] == At(queues[k], i)
      ensures forall j :: 0 <= j < i ==> Prio(tasks, queues[k][j]) <= tasks[t].preemption
      ensures i < |queues[k]| ==> tasks[t].preemption < Prio(tasks, queues[k][i])
    {
      hide NoDuplicates, Linked;
      ghost var q := queues[k];
      ListHead(k);
      ListNode(k, 0);
      p, i := heads[k].value, 1;
      while next[p].Some?
        invariant 1 <= i <= |q| && p == q[i - 1] && p in next && next[p] == At(q, i)
        invariant forall j :: 0 <= j < i ==> Prio(tasks, q[j]) <= tasks[t].preemption
        decreases |q| - i
      {
        ListNode(k, i);
        if tasks[t].preemption < tasks[next[p].value].preemption { break; }
        p, i := next[p].value, i + 1;
      }
    }

    /** `q_insert_task`: link t into the queue of its status, behind its equals. */
    method QInsert(t: T)
      requires Linked(tasks, next, heads, queues) && t in tasks && t !in queues[Slot(tasks[t].status)]
      modifies this`next, this`heads, this`queues
      ensures Linked(tasks, next, heads, queues)
      ensures var k := Slot(tasks[t].status); queues == old(queues)[k := Enqueue(old(queues[k]), tasks, t)]
    {
      hide NoDuplicates, Enqueue, InsertAt, Linked;
      var k := Slot(tasks[t].status);
      ListHead(k);
      ghost var q, i := queues[k], 0;
      if heads[k] == None || tasks[t].preemption < tasks[heads[k].value].preemption {
        next := next[t := heads[k]];
        heads := heads[k := Some(t)];
      } else {
        var p;
        p, i := FindPlace(k, t);
        next := next[t := next[p]][p := Some(t)];
      }
      Placed(q, tasks, t, i);
      LinkedInsert(tasks, old(next), old(heads), old(queues), k, i, t);
      assert heads == old(heads)[k := heads[k]];
      queues := queues[k := InsertAt(q, i, t)];
    }

    /** `q_delete_task`: unlink t from the queue of its status. The search always finds it, so the
        original's assertion is never reached. */
    method QDelete(t: T)
      requires Linked(tasks, next, heads, queues) && t in tasks && t in queues[Slot(tasks[t].status)]
      modifies this`next, this`heads, this`queues
      ensures Linked(tasks, next, heads, queues)
      ensures var k := Slot(tasks[t].status); queues == old(queues)[k := Dequeue(old(queues[k]), t)]
    {
      hide NoDuplicates, Dequeue;
      var k := Slot(tasks[t].status);
      assert ListOk(tasks, next, heads[k], queues[k], k);
      ghost var q := queues[k];
      ghost var i := ListRemoved(tasks, next, heads[k], q, k, t);
      if heads[k] == Some(t) {
        heads := heads[k := next[t]];
        next := next[t := None];
      } else {
        var p := heads[k].value;
        ghost var j := 0;
        while next[p] != Some(t)
          invariant 0 <= j < i && p == q[j]
          decreases i - j
        {
          p, j := next[p].value, j + 1;
        }
        Distinct(q, j + 1, i);
        next := next[p := next[t]][t := None];
      }
      OthersLinked(tasks, old(next), next, old(heads), old(queues), k, heads[k], Dequeue(q, t));
      assert heads == old(heads)[k := heads[k]];
      queues := queues[k := Dequeue(q, t)];
    }

    /** Unlink t, rewrite its control block, link it in again: the body of every bracketed queue edit. */
    method Relink(t: T, task: Task<T>)
      requires Valid() && t in tasks
      modifies this`tasks, this`next, this`heads, this`queues
      ensures Valid() && Abs() == Move(old(Abs()), t, task)
    {
      hide NoDuplicates, Enqueue, Dequeue, Linked, Move;
      ghost var k, q, s := Slot(tasks[t].status), queues, Abs();
      ListHead(k);
      QDelete(t);
      RewriteUnlinked(tasks, next, heads, q, queues, k, t, task);
      tasks := tasks[t := task];
      QInsert(t);
      Requeued(q, k, t, Slot(task.status), tasks, queues);
      MoveIs(s, t, task, queues);
    }

    /** `preempt_running_task`: ask for a switch if a ready task is RUNNING. */
    method PreemptRunning()
      requires Valid()
      modifies this`switching
      ensures Abs() == Preempt(old(Abs()))
    {
      hide NoDuplicates, Linked;
      ListHead(READY);
      ghost var q, i := queues[READY], 0;
      var t := heads[READY];
      while t.Some?
        invariant 0 <= i <= |q| && t == At(q, i)
        invariant switching == (old(switching) || HasRunning(q[..i], tasks))
        decreases |q| - i
      {
        ListNode(READY, i);
        assert q[..i + 1] == q[..i] + [q[i]];
        if tasks[t.value].status == Running { switching := true; }
        t, i := next[t.value], i + 1;
      }
      assert q[..i] == q;
    }

    method Suspend(t: T)
      requires Valid() && t in tasks
      modifies this`tasks, this`next, this`heads, this`queues, this`switching
      ensures Valid() && Abs() == TaskModel.Suspend(old(Abs()), t)
    {
      if tasks[t].status == Suspended { return; }
      Relink(t, tasks[t].(status := Suspended));
      switching := true;
    }

    method Terminate(t: T)
      requires Valid() && t in tasks
      modifies this`tasks, this`next, this`heads, this`queues
      ensures Valid() && Abs() == TaskModel.Terminate(old(Abs()), t)
    {
      if tasks[t].status == Dormant { return; }
      Relink(t, tasks[t].(status := Dormant));
    }

    method Resume(t: T)
      requires Valid() && t in tasks
      modifies this`tasks, this`next, this`heads, this`queues, this`switching, this`gate
      ensures Valid() && Abs() == TaskModel.Resume(old(Abs()), t)
    {
      if tasks[t].status != Suspended { return; }
      var toReady := tasks[t].reason == NoReason;
      if toReady { PreemptRunning(); }
      Relink(t, tasks[t].(status := if toReady then Ready else Waiting));
      if tasks[t].reason == Sleeping {
        if Before(tasks[t].wakeup, gate) { gate := tasks[t].wakeup; }
      }
    }

    /** `sleep_ms_impl`: the head of the ready queue is taken for the current task. */
    method SleepMs(ms: int)
      requires Valid() && queues[READY] != [] && queues[READY][0] in tasks
      modifies this`tasks, this`next, this`heads, this`queues, this`switching, this`gate
      ensures Valid() && Abs() == TaskModel.SleepMs(old(Abs()), ms)
    {
      hide Move, NoDuplicates, Before, Plus, TicksFor;
      assert ListOk(tasks, next, heads[READY], queues[READY], READY);
      var t := heads[READY].value;
      var deadline := Plus(tick, TicksFor(ms));
      Relink(t, tasks[t].(status := Waiting, reason := Sleeping, wakeup := deadline));
      if Before(deadline, gate) { gate := deadline; }
      switching := true;
    }

    method Join(target: T)
      requires Valid() && target in tasks && current.Some?
      modifies this`tasks, this`next, this`heads, this`queues, this`switching
      ensures Valid() && Abs() == TaskModel.Join(old(Abs()), target)
    {
      var c := current.value;
      if target == c || tasks[target].status == Dormant { return; }
      Relink(c, tasks[c].(status := Waiting, reason := Joining, joined := Some(target)));
      switching := true;
    }

    method Pass()
      requires Valid() && current.Some?
      modifies this`tasks
      ensures Valid() && Abs() == TaskModel.Pass(old(Abs()))
    {
      hide NoDuplicates;
      var c := current.value;
      RewriteLinked(tasks, next, heads, queues, c, tasks[c].(timeslice := 0, preemption := 1));
      tasks := tasks[c := tasks[c].(timeslice := 0, preemption := 1)];
    }

    /** `mrb_tick`. */
    method Tick()
      requires Valid()
      modifies this
      ensures Valid() && Abs() == TaskModel.Tick(old(Abs()))
    {
      hide NoDuplicates, Before, Move, Plus, Scan, Preempt, Linked, Advance;
      AdvanceClock();
      if Before(gate, tick) {
        gate := Plus(tick, MAX_GATE);
        var woke := WakeDue();
        if woke { PreemptRunning(); }
      }
    }

    method AdvanceClock()
      requires Valid()
      modifies this`tick, this`tasks, this`switching
      ensures Valid() && Abs() == Advance(old(Abs()))
    {
      hide NoDuplicates, Plus, Linked;
      tick := Plus(tick, 1);
      ListHead(READY);
      if heads[READY].Some? && 0 < tasks[heads[READY].value].timeslice {
        var h := heads[READY].value;
        RewriteLinked(tasks, next, heads, queues, h, tasks[h].(timeslice := tasks[h].timeslice - 1));
        tasks := tasks[h := tasks[h].(timeslice := tasks[h].timeslice - 1)];
        if tasks[h].timeslice == 0 { switching := true; }
      }
    }

    /** The tick's walk over the waiting list. The successor is read before the node is relinked. */
    method WakeDue() returns (woke: bool)
      requires Valid()
      modifies this`tasks, this`next, this`heads, this`queues, this`gate
      ensures Valid() && (Abs(), woke) == Scan(old(Abs()), old(queues[WAITING]), false)
    {
      hide NoDuplicates, Before, Move, Linked, AllListed, Dequeue;
      ListHead(WAITING);
      woke := false;
      var p := heads[WAITING];
      ghost var kept, rest := [], queues[WAITING];
      while p.Some?
        invariant Valid() && p == At(rest, 0) && queues[WAITING] == kept + rest
        invariant Scan(Abs(), rest, woke) == Scan(old(Abs()), old(queues[WAITING]), false)
        decreases |rest|
      {
        var t := p.value;
        ListNode(WAITING, |kept|);
        ListHead(WAITING);
        p := next[t];
        if tasks[t].reason != Sleeping {
          kept, rest := kept + [t], rest[1..];
        } else if Before(tasks[t].wakeup, tick) {
          Detached(kept, rest);
          WokenQueue(Abs(), t);
          Relink(t, tasks[t].(status := Ready, reason := NoReason));
          woke := true;
          rest := rest[1..];
        } else {
          if Before(tasks[t].wakeup, gate) { gate := tasks[t].wakeup; }
          kept, rest := kept + [t], rest[1..];
        }
      }
    }

    /** The loop head of `mrb_tasks_run`. */
    method Dispatch()
      requires Valid() && queues[READY] != [] && queues[READY][0] in tasks
      modifies this`tasks, this`current, this`inVm
      ensures Valid() && Abs() == TaskModel.Dispatch(old(Abs()))
    {
      hide NoDuplicates, Linked;
      ListHead(READY);
      var t := heads[READY].value;
      RewriteLinked(tasks, next, heads, queues, t, tasks[t].(status := Running, timeslice := TIMESLICE_TICK_COUNT));
      tasks := tasks[t := tasks[t].(status := Running, timeslice := TIMESLICE_TICK_COUNT)];
      current, inVm := Some(t), true;
    }

    /** The rest of the loop body of `mrb_tasks_run`, once the virtual machine has returned. */
    method Finish(stopped: bool)
      requires Valid() && current.Some?
      modifies this
      ensures Valid() && Abs() == TaskModel.Finish(old(Abs()), stopped)
    {
      hide NoDuplicates, Move, ReleaseWaiting, ReleaseSuspended, Linked;
      var c := current.value;
      switching, inVm := false, false;
      if stopped {
        Relink(c, tasks[c].(status := Dormant));
        WakeJoiners(c);
        FreeJoiners(c);
      } else if tasks[c].status == Running {
        Relink(c, tasks[c].(status := Ready));
      }
    }

    method WakeJoiners(c: T)
      requires Valid()
      modifies this`tasks, this`next, this`heads, this`queues
      ensures Valid() && Abs() == ReleaseWaiting(old(Abs()), c, old(queues[WAITING]))
    {
      hide NoDuplicates, Move, Linked, AllListed;
      ListHead(WAITING);
      var p := heads[WAITING];
      ghost var kept, rest := [], queues[WAITING];
      while p.Some?
        invariant Valid() && p == At(rest, 0) && queues[WAITING] == kept + rest
        invariant ReleaseWaiting(Abs(), c, rest) == ReleaseWaiting(old(Abs()), c, old(queues[WAITING]))
        decreases |rest|
      {
        var t := p.value;
        ListNode(WAITING, |kept|);
        ListHead(WAITING);
        p := next[t];
        if JoinsOn(tasks[t], c) {
          Detached(kept, rest);
          WokenQueue(Abs(), t);
          Relink(t, tasks[t].(status := Ready, reason := NoReason));
          rest := rest[1..];
        } else {
          kept, rest := kept + [t], rest[1..];
        }
      }
    }

    method FreeJoiners(c: T)
      requires Valid()
      modifies this`tasks
      ensures Valid() && Abs() == ReleaseSuspended(old(Abs()), c, queues[SUSPENDED])
    {
      hide NoDuplicates, Linked;
      ListHead(SUSPENDED);
      var p := heads[SUSPENDED];
      ghost var i, q := 0, queues[SUSPENDED];
      while p.Some?
        invariant Valid() && 0 <= i <= |q| && p == At(q, i)
        invariant ReleaseSuspended(Abs(), c, q[i..]) == ReleaseSuspended(old(Abs()), c, q)
        decreases |q| - i
      {
        var t := p.value;
        ListNode(SUSPENDED, i);
        assert q[i..][0] == t && q[i..][1..] == q[i + 1..];
        if JoinsOn(tasks[t], c) {
          RewriteLinked(tasks, next, heads, queues, t, tasks[t].(reason := NoReason));
          tasks := tasks[t := tasks[t].(reason := NoReason)];
        }
        p, i := next[t], i + 1;
      }
    }

    method Create(t: T, priority: int)
      requires Valid() && t !in tasks
      modifies this`tasks, this`next, this`heads, this`queues, this`switching
      ensures Valid() && Abs() == TaskModel.Create(old(Abs()), t, priority)
    {
      hide NoDuplicates, Enqueue;
      var p := priority % 256;
      var task := Task(p, p, 0, Ready, NoReason, 0, None);
      AddUnlinked(tasks, next, heads, queues, t, task);
      tasks := tasks[t := task];
      QInsert(t);
      EnqueueMembers(old(queues)[READY], tasks, t);
      PreemptRunning();
    }
  }

  /** The control block of an unlinked task is free to change. */
  lemma {:induction false} RewriteUnlinked<T>(
    tasks: map<T, Task<T>>, next: map<T, Option<T>>, heads: seq<Option<T>>,
    q: Queues<T>, queues: Queues<T>, k: nat, t: T, task: Task<T>)
    requires Linked(tasks, next, heads, queues) && t in tasks && Slot(tasks[t].status) == k
    requires t in q[k] && NoDuplicates(q[k]) && queues == q[k := Dequeue(q[k], t)]
    ensures forall l :: 0 <= l < 4 ==> t !in queues[l]
    ensures Linked(tasks[t := task], next, heads, queues)
  {
    hide NoDuplicates;
    var _ := DequeueKeeps(q[k], t);
    forall l | 0 <= l < 4
      ensures t !in queues[l] && ListOk(tasks[t := task], next, heads[l], queues[l], l)
    {
      assert ListOk(tasks, next, heads[l], queues[l], l);
    }
  }

  lemma {:induction false} AddUnlinked<T>(
    tasks: map<T, Task<T>>, next: map<T, Option<T>>, heads: seq<Option<T>>, queues: Queues<T>, t: T, task: Task<T>)
    requires Linked(tasks, next, heads, queues) && t !in tasks
    ensures Linked(tasks[t := task], next, heads, queues)
    ensures forall l :: 0 <= l < 4 ==> t !in queues[l]
  {
    hide NoDuplicates;
    forall l | 0 <= l < 4
      ensures t !in queues[l] && ListOk(tasks[t := task], next, heads[l], queues[l], l)
    {
      assert ListOk(tasks, next, heads[l], queues[l], l);
    }
  }

  lemma {:induction false} WokenQueue<T>(s: State<T>, t: T)
    requires t in s.tasks && s.tasks[t].status == Waiting
    ensures WakeUp(s, t).queues[WAITING] == Dequeue(s.queues[WAITING], t)
  {}

  /** Removing the first of the rest leaves the nodes kept in front of it. */
  lemma {:induction false} Detached<T>(kept: seq<T>, rest: seq<T>)
    requires rest != [] && NoDuplicates(kept + rest)
    ensures Dequeue(kept + rest, rest[0]) == kept + rest[1..]
  {
    var i := DequeueKeeps(kept + rest, rest[0]);
    Distinct(kept + rest, |kept|, i);
    assert (kept + rest)[..|kept|] == kept && (kept + rest)[|kept| + 1..] == rest[1..];
  }

  /** A linked task may change anything but the queue its status selects. */
  lemma {:induction false} RewriteLinked<T>(
    tasks: map<T, Task<T>>, next: map<T, Option<T>>, heads: seq<Option<T>>, queues: Queues<T>, t: T, task: Task<T>)
    requires Linked(tasks, next, heads, queues) && t in tasks && Slot(task.status) == Slot(tasks[t].status)
    ensures Linked(tasks[t := task], next, heads, queues)
  {
    hide NoDuplicates;
    forall l | 0 <= l < 4 ensures ListOk(tasks[t := task], next, heads[l], queues[l], l) {
      assert ListOk(tasks, next, heads[l], queues[l], l);
    }
  }

  lemma {:induction false} EnqueueMembers<T>(q: seq<T>, tasks: map<T, Task<T>>, t: T)
    ensures t in Enqueue(q, tasks, t)
    ensures forall u :: u in q ==> u in Enqueue(q, tasks, t)
  {
    var i := InsertionPoint(q, tasks, Prio(tasks, t));
    var e := Enqueue(q, tasks, t);
    assert e[i] == t;
    forall u | u in q ensures u in e {
      var j :| 0 <= j < |q| && q[j] == u;
      assert e[if j < i then j else j + 1] == u;
    }
  }

  lemma {:induction false} MoveIs<T>(s: State<T>, t: T, task: Task<T>, q: Queues<T>)
    requires t in s.tasks
    requires var k, k' := Slot(s.tasks[t].status), Slot(task.status);
             var r := s.queues[k := Dequeue(s.queues[k], t)];
             q == r[k' := Enqueue(r[k'], s.tasks[t := task], t)]
    ensures Move(s, t, task) == s.(tasks := s.tasks[t := task], queues := q)
  {}

  /** After a move everybody else is still listed, and t is where its new status says. */
  lemma {:induction false} Requeued<T>(q: Queues<T>, k: nat, t: T, k': nat, tasks: map<T, Task<T>>, q': Queues<T>)
    requires k < 4 && k' < 4 && t in q[k] && NoDuplicates(q[k])
    requires var r := q[k := Dequeue(q[k], t)]; q' == r[k' := Enqueue(r[k'], tasks, t)]
    ensures t in q'[k']
    ensures forall l, u :: 0 <= l < 4 && u in q[l] && u != t ==> u in q'[l]
  {
    hide NoDuplicates, Enqueue, Dequeue;
    var _ := DequeueKeeps(q[k], t);
    EnqueueMembers(q[k := Dequeue(q[k], t)][k'], tasks, t);
  }

  lemma {:induction false} Distinct<T>(q: seq<T>, i: nat, j: nat)
    requires NoDuplicates(q) && i < |q| && j < |q| && q[i] == q[j]
    ensures i == j
  {}

  /** The walk stops at the insertion point. */
  lemma {:induction false} Placed<T>(q: seq<T>, tasks: map<T, Task<T>>, t: T, i: nat)
    requires i <= |q| && forall j :: 0 <= j < i ==> Prio(tasks, q[j]) <= Prio(tasks, t)
    requires i < |q| ==> Prio(tasks, t) < Prio(tasks, q[i])
    ensures Enqueue(q, tasks, t) == InsertAt(q, i, t)
  {
    InsertionPointIs(q, tasks, Prio(tasks, t), i);
  }
}
