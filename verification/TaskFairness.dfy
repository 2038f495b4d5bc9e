/** Tasks of equal priority are served first come, first served, and take turns. */
module TaskFairness {
  import opened Options
  import opened TaskModel
  import opened TaskQueueInvariant

  /** The tasks of priority p, in queue order. */
  function Line<T>(q: seq<T>, tasks: map<T, Task<T>>, p: nat): seq<T> {
    if q == [] then []
    else if Prio(tasks, q[0]) == p then [q[0]] + Line(q[1..], tasks, p)
    else Line(q[1..], tasks, p)
  }

  lemma {:induction false} LineConcat<T>(a: seq<T>, b: seq<T>, tasks: map<T, Task<T>>, p: nat)
    ensures Line(a + b, tasks, p) == Line(a, tasks, p) + Line(b, tasks, p)
  {
    if a == [] {
      assert a + b == b;
    } else {
      LineConcat(a[1..], b, tasks, p);
      assert (a + b)[1..] == a[1..] + b;
    }
  }

  lemma {:induction false} LineMembers<T>(q: seq<T>, tasks: map<T, Task<T>>, p: nat)
    ensures forall i :: 0 <= i < |Line(q, tasks, p)| ==> Line(q, tasks, p)[i] in q
  {
    if q != [] { LineMembers(q[1..], tasks, p); }
  }

  lemma {:induction false} InsertLine<T>(a: seq<T>, t: T, b: seq<T>, tasks: map<T, Task<T>>, p: nat)
    ensures Line(a + [t] + b, tasks, p) ==
      Line(a, tasks, p) + (if Prio(tasks, t) == p then [t] else []) + Line(b, tasks, p)
  {
    LineConcat(a + [t], b, tasks, p);
    LineConcat(a, [t], tasks, p);
    assert Line([t], tasks, p) == if Prio(tasks, t) == p then [t] else [];
  }

  /** Inserting an element is appending it exactly when nothing stands behind it. */
  lemma {:induction false} InsertIsAppend<T>(a: seq<T>, t: T, b: seq<T>)
    requires t !in b
    ensures a + [t] + b == (a + b) + [t] <==> b == []
  {
    if b != [] {
      assert b[0] in b;
      assert (a + [t] + b)[|a|] == t && ((a + b) + [t])[|a|] == b[0];
    } else {
      assert a + [t] + b == a + [t] && a + b == a;
    }
  }

  /** Linking a task in puts it last in the line of its priority, and leaves the other lines alone,
      exactly when no task of the same priority stands behind the insertion point. */
  lemma {:induction false} EnqueueIsFifo<T>(q: seq<T>, tasks: map<T, Task<T>>, t: T, p: nat)
    requires t !in q
    ensures var line, line' := Line(q, tasks, p), Line(Enqueue(q, tasks, t), tasks, p);
            if Prio(tasks, t) != p then line' == line
            else line' == line + [t] <==> Line(q[InsertionPoint(q, tasks, p)..], tasks, p) == []
  {
    hide Line, InsertionPoint;
    var i := InsertionPoint(q, tasks, Prio(tasks, t));
    var a, b := q[..i], q[i..];
    assert q == a + b;
    LineConcat(a, b, tasks, p);
    InsertLine(a, t, b, tasks, p);
    LineMembers(b, tasks, p);
    if Prio(tasks, t) == p { InsertIsAppend(Line(a, tasks, p), t, Line(b, tasks, p)); }
    assert Line(a, tasks, p) + [] + Line(b, tasks, p) == Line(a, tasks, p) + Line(b, tasks, p);
  }

  /** In a queue that meets the invariant, only a RUNNING task can stand behind an equal that arrives,
      unless the arriving task has priority 0: that is the one level `Task.pass` can disturb. */
  lemma {:induction false} NoEqualBehind<T>(q: seq<T>, tasks: map<T, Task<T>>, t: T, u: T)
    requires InOrder(q, tasks) && Prio(tasks, t) != 0
    requires u in q[InsertionPoint(q, tasks, Prio(tasks, t))..] && !IsRunning(tasks, u)
    ensures Prio(tasks, t) < Prio(tasks, u)
  {
    var i := InsertionPoint(q, tasks, Prio(tasks, t));
    var j :| i <= j < |q| && q[j] == u;
    if i < j { assert MayPrecede(tasks, q[i], q[j]); }
  }

  // ---------------------------------------------------------------- who sleeps

  /** `sleep_ms_impl` takes the head of the ready queue for its caller. The RUNNING task is the one put
      to sleep exactly when it is that head. */
  lemma {:induction false} SleepTakesHead<T>(s: State<T>, ms: int)
    requires Inv(s) && Legal(s, SleepStep(ms)) && IsRunning(s.tasks, s.current.value)
    ensures var c, s' := s.current.value, SleepMs(s, ms);
            && c in s'.tasks
            && (s'.tasks[c].status == Waiting <==> s.queues[READY][0] == c)
            && (s'.tasks[c].status == Running <==> s.queues[READY][0] != c)
  {
    hide Inv, Enqueue, Dequeue;
  }

  /** A running task that creates a task of better priority and then sleeps puts the new task to sleep
      and stays RUNNING itself. */
  lemma {:induction false} SleepHitsNewcomer<T>(s: State<T>, t: T, priority: int, ms: int)
    requires Inv(s) && s.inVm && s.queues[READY] != [] && s.current == Some(s.queues[READY][0])
    requires IsRunning(s.tasks, s.current.value) && t !in s.tasks
    requires priority % 256 < s.tasks[s.current.value].preemption
    ensures var s1 := Create(s, t, priority);
            Legal(s1, SleepStep(ms)) &&
            var s2 := SleepMs(s1, ms);
            && t in s2.tasks && s2.tasks[t].status == Waiting
            && s.current.value in s2.tasks && s2.tasks[s.current.value].status == Running
  {
    var s1 := Create(s, t, priority);
    CreateKeeps(s, t, priority);
    assert s1.queues[READY][0] == t;
    SleepTakesHead(s1, ms);
    SleepEffect(s1, ms);
  }

  lemma {:induction false} SleepEffect<T>(s: State<T>, ms: int)
    requires Legal(s, SleepStep(ms))
    ensures var t := s.queues[READY][0];
            SleepMs(s, ms).tasks == s.tasks[t := SleepMs(s, ms).tasks[t]] && SleepMs(s, ms).tasks[t].status == Waiting
  {}
}
