/** Tasks of equal priority take turns, however many ticks each turn takes. */
module TaskRoundRobin {
  import opened Options
  import opened Ticks
  import opened TaskModel
  import opened TaskQueueInvariant
  import opened TaskEffects

  /** The clock runs on while a task has the processor. */
  function RunTicks<T>(s: State<T>, n: nat): State<T>
    decreases n
  {
    if n == 0 then s else RunTicks(Tick(s), n - 1)
  }

  /** One turn of the run loop with n ticks in it, in which the task neither stops nor calls the
      scheduler. */
  function Turn<T>(s: State<T>, n: nat): State<T>
    requires s.queues[READY] != [] && s.queues[READY][0] in s.tasks
  {
    var d := RunTicks(Dispatch(s), n);
    if d.current.Some? && d.current.value in d.tasks then Finish(d, false) else d
  }

  /** The first k ready tasks share the best priority, and no other ready task has it. */
  predicate Peers<T>(s: State<T>, k: nat) {
    var q := s.queues[READY];
    && 0 < k <= |q|
    && (forall i :: 0 <= i < k ==> q[i] in s.tasks && Prio(s.tasks, q[i]) == Prio(s.tasks, q[0]))
    && (forall i :: k <= i < |q| ==> Prio(s.tasks, q[0]) < Prio(s.tasks, q[i]))
  }

  function Best<T>(s: State<T>): nat {
    if s.queues[READY] == [] then 0 else Prio(s.tasks, s.queues[READY][0])
  }

  /** The next tick wakes t. */
  predicate Wakes<T>(s: State<T>, t: T) {
    && t in s.tasks && s.tasks[t].status == Waiting
    && t in Tick(s).tasks && Tick(s).tasks[t].status == Ready
  }

  /** The next n ticks wake only tasks of a worse priority than the best. */
  predicate WakeOnlyWorse<T>(s: State<T>, n: nat)
    decreases n
  {
    n == 0 ||
    ((forall t :: t in s.tasks && Wakes(s, t) ==> Best(s) < Prio(s.tasks, t)) && WakeOnlyWorse(Tick(s), n - 1))
  }

  /** The next n ticks wake nobody. */
  predicate WakeNobody<T>(s: State<T>, n: nat)
    decreases n
  {
    n == 0 || ((forall t :: t in s.tasks ==> !Wakes(s, t)) && WakeNobody(Tick(s), n - 1))
  }

  /** The best k tasks stand as they did. */
  predicate SamePeers<T>(s: State<T>, s': State<T>, k: nat) {
    && Peers(s, k) && Peers(s', k)
    && s'.queues[READY][..k] == s.queues[READY][..k]
    && Best(s') == Best(s)
  }

  lemma {:induction false} WakePeers<T>(s: State<T>, t: T, k: nat)
    requires Peers(s, k) && t in s.tasks && s.tasks[t].status == Waiting && t !in s.queues[READY]
    requires Best(s) < Prio(s.tasks, t)
    ensures SamePeers(s, WakeUp(s, t), k)
  {
    hide Dequeue;
    var q, s' := s.queues[READY], WakeUp(s, t);
    assert forall u :: Prio(s'.tasks, u) == Prio(s.tasks, u);
    var i := InsertionPoint(q, s'.tasks, Prio(s'.tasks, t));
    assert forall j :: 0 <= j < k ==> Prio(s.tasks, q[j]) == Best(s);
    assert k <= i;
    InsertBehind(q, t, i, k);
    assert s'.queues[READY] == InsertAt(q, i, t);
  }

  lemma {:induction false} InsertBehind<T>(q: seq<T>, t: T, i: nat, k: nat)
    requires k <= i <= |q|
    ensures var e := InsertAt(q, i, t);
            && e[..k] == q[..k] && |e| == |q| + 1
            && forall j :: 0 <= j < |e| ==> e[j] == if j < i then q[j] else if j == i then t else q[j - 1]
  {
  }

  lemma {:induction false} ScanPeers<T>(s: State<T>, pending: seq<T>, woke: bool, k: nat)
    requires Peers(s, k) && NoDuplicates(pending)
    requires forall t :: t in pending ==> t in s.tasks && s.tasks[t].status == Waiting && t !in s.queues[READY]
    requires forall t :: t in pending && Due(s, t) ==> Best(s) < Prio(s.tasks, t)
    ensures SamePeers(s, Scan(s, pending, woke).0, k)
    ensures (forall t :: t in pending ==> !Due(s, t)) ==> Scan(s, pending, woke).0.queues == s.queues
    decreases |pending|
  {
    hide Before, Move, Peers;
    if pending != [] {
      var t, rest := pending[0], pending[1..];
      assert t in pending && forall u :: u in rest ==> u in pending && u != t;
      if s.tasks[t].reason != Sleeping {
        ScanPeers(s, rest, woke, k);
      } else if Before(s.tasks[t].wakeup, s.tick) {
        assert Due(s, t);
        WakePeers(s, t, k);
        WakeAside(s, t, rest);
        ScanPeers(WakeUp(s, t), rest, true, k);
      } else if Before(s.tasks[t].wakeup, s.gate) {
        var lowered := s.(gate := s.tasks[t].wakeup);
        PeersIgnoreGate(s, lowered.gate, k);
        ScanPeers(lowered, rest, woke, k);
      } else {
        ScanPeers(s, rest, woke, k);
      }
    }
  }

  /** Waking t leaves the others as they were. */
  lemma {:induction false} WakeAside<T>(s: State<T>, t: T, rest: seq<T>)
    requires t in s.tasks && s.tasks[t].status == Waiting
    requires forall u :: u in rest ==> u != t && u in s.tasks && s.tasks[u].status == Waiting && u !in s.queues[READY]
    ensures var s' := WakeUp(s, t);
            && s'.tick == s.tick
            && (forall u :: u in rest ==> u in s'.tasks && s'.tasks[u] == s.tasks[u] && u !in s'.queues[READY])
            && (forall u :: Prio(s'.tasks, u) == Prio(s.tasks, u))
  {
    hide Dequeue;
    var q, s' := s.queues[READY], WakeUp(s, t);
    var i := InsertionPoint(q, s'.tasks, Prio(s'.tasks, t));
    assert s'.queues[READY] == InsertAt(q, i, t);
    assert forall u :: u in InsertAt(q, i, t) ==> u == t || u in q;
  }

  lemma {:induction false} PeersIgnoreGate<T>(s: State<T>, gate: int, k: nat)
    ensures Peers(s.(gate := gate), k) <==> Peers(s, k)
  {}

  /** A tick that wakes only worse tasks leaves the best ones as they stand. */
  lemma {:induction false} TickPeers<T>(s: State<T>, k: nat)
    requires Inv(s) && Peers(s, k) && WakeOnlyWorse(s, 1)
    ensures SamePeers(s, Tick(s), k)
    ensures WakeNobody(s, 1) ==> Tick(s).queues == s.queues
  {
    hide Inv, Before, Scan, Advance, Peers, SamePeers, Move;
    var a := Advance(s);
    AdvancePeers(s, k);
    AdvanceKeeps(s);
    if Before(a.gate, a.tick) {
      var b := a.(gate := Plus(a.tick, MAX_GATE));
      PeersIgnoreGate(a, b.gate, k);
      WaitingApart(a);
      ScanWakes(b, a.queues[WAITING], false);
      var s1 := Scan(b, a.queues[WAITING], false).0;
      assert Tick(s).tasks == s1.tasks && Tick(s).queues == s1.queues by { TickScans(s); }
      forall t | t in a.queues[WAITING] && Due(b, t) ensures t in s.tasks && Wakes(s, t) && Best(s) < Prio(s.tasks, t) {
        assert t in s.tasks && s.tasks[t].status == Waiting;
        assert s1.tasks[t].status == Ready;
      }
      LookSame(s, a, b, k);
      ScanPeers(b, a.queues[WAITING], false, k);
      SamePeersTwice(s, b, s1, k);
      LookSame(s, s1, Tick(s), k);
    } else {
      assert Tick(s) == a;
    }
  }

  /** Queues and priorities decide about peers. */
  lemma {:induction false} SamePeersTwice<T>(s: State<T>, b: State<T>, s': State<T>, k: nat)
    requires SamePeers(s, b, k) && SamePeers(b, s', k)
    ensures SamePeers(s, s', k)
  {}

  lemma {:induction false} LookSame<T>(s: State<T>, a: State<T>, b: State<T>, k: nat)
    requires SamePeers(s, a, k) && b.tasks == a.tasks && b.queues == a.queues
    ensures SamePeers(s, b, k) && Peers(b, k) && Best(b) == Best(s)
  {}

  lemma {:induction false} TickScans<T>(s: State<T>)
    requires Before(Advance(s).gate, Advance(s).tick)
    ensures var a := Advance(s);
            var s1 := Scan(a.(gate := Plus(a.tick, MAX_GATE)), a.queues[WAITING], false).0;
            Tick(s).tasks == s1.tasks && Tick(s).queues == s1.queues
  {
    hide Scan, Advance, Before;
  }

  lemma {:induction false} AdvancePeers<T>(s: State<T>, k: nat)
    requires Peers(s, k)
    ensures SamePeers(s, Advance(s), k) && Advance(s).queues == s.queues
    ensures forall u :: Prio(Advance(s).tasks, u) == Prio(s.tasks, u)
    ensures Advance(s).tasks.Keys == s.tasks.Keys
    ensures forall t :: t in s.tasks ==> Advance(s).tasks[t].status == s.tasks[t].status
  {}

  lemma {:induction false} WaitingApart<T>(a: State<T>)
    requires Inv(a)
    ensures NoDuplicates(a.queues[WAITING])
    ensures forall t :: t in a.queues[WAITING] ==>
      t in a.tasks && a.tasks[t].status == Waiting && t !in a.queues[READY]
  {
    hide Sorted, NoDuplicates;
  }

  /** Over n ticks that wake only worse tasks. */
  lemma {:induction false} RunTicksPeers<T>(s: State<T>, n: nat, k: nat)
    requires Inv(s) && Peers(s, k) && WakeOnlyWorse(s, n)
    ensures var d := RunTicks(s, n);
            && Inv(d) && SamePeers(s, d, k) && d.current == s.current && d.inVm == s.inVm
            && d.tasks.Keys == s.tasks.Keys
            && (forall t :: t in s.tasks && s.tasks[t].status == Running ==> d.tasks[t].status == Running)
            && (WakeNobody(s, n) ==> d.queues == s.queues)
    decreases n
  {
    hide Inv, Peers, SamePeers, Tick;
    if n == 0 {
      SamePeersAlways(s, k);
    } else {
      TickEffect(s);
      TickKeeps(s);
      TickPeers(s, k);
      SamePeersBoth(s, Tick(s), k);
      RunTicksPeers(Tick(s), n - 1, k);
      SamePeersTwice(s, Tick(s), RunTicks(s, n), k);
    }
  }

  lemma {:induction false} SamePeersAlways<T>(s: State<T>, k: nat)
    requires Peers(s, k)
    ensures SamePeers(s, s, k)
  {}

  lemma {:induction false} SamePeersBoth<T>(s: State<T>, s': State<T>, k: nat)
    requires SamePeers(s, s', k)
    ensures Peers(s', k) && Best(s) == Best(s') && s'.queues[READY][..k] == s.queues[READY][..k]
    ensures 0 < k <= |s.queues[READY]| && 0 < k <= |s'.queues[READY]| && s'.queues[READY][0] == s.queues[READY][0]
  {
    assert s'.queues[READY][0] == s'.queues[READY][..k][0];
  }

  /** The end of the turn puts the running head behind its peers. */
  lemma {:induction false} FinishQueue<T>(d: State<T>, k: nat)
    requires Peers(d, k) && d.current == Some(d.queues[READY][0]) && d.queues[READY][0] in d.tasks
    requires d.tasks[d.queues[READY][0]].status == Running
    ensures var q, s' := d.queues[READY], Finish(d, false);
            && s'.queues[READY] == q[1..k] + [q[0]] + q[k..] && s'.current == d.current && !s'.inVm
            && forall u :: Prio(s'.tasks, u) == Prio(d.tasks, u)
  {
    var q, tasks := d.queues[READY], Finish(d, false).tasks;
    assert Dequeue(q, q[0]) == q[1..];
    assert forall u :: Prio(tasks, u) == Prio(d.tasks, u);
    assert forall j :: 0 <= j < |q| - 1 ==> q[1..][j] == q[j + 1];
    InsertionPointIs(q[1..], tasks, Prio(tasks, q[0]), k - 1);
    assert q[1..][..k - 1] == q[1..k] && q[1..][k - 1..] == q[k..];
  }

  lemma {:induction false} PeersAfterTurn<T>(d: State<T>, s': State<T>, k: nat)
    requires Peers(d, k) && forall u :: Prio(s'.tasks, u) == Prio(d.tasks, u)
    requires forall i :: 0 <= i < k ==> d.queues[READY][i] in s'.tasks
    requires var q := d.queues[READY]; s'.queues[READY] == q[1..k] + [q[0]] + q[k..]
    ensures Peers(s', k)
  {
    var q, q' := d.queues[READY], s'.queues[READY];
    assert forall i :: 0 <= i < |q'| ==> q'[i] == if i < k - 1 then q[i + 1] else if i == k - 1 then q[0] else q[i];
  }

  /** A turn runs the head and moves it behind its peers, whatever its ticks do to worse tasks. */
  lemma {:induction false} TurnRotates<T>(s: State<T>, k: nat, n: nat)
    requires Inv(s) && !s.inVm && Peers(s, k) && WakeOnlyWorse(Dispatch(s), n)
    ensures var q, s' := s.queues[READY], Turn(s, n);
            && k <= |s'.queues[READY]| && s'.queues[READY][..k] == q[1..k] + [q[0]]
            && s'.current == Some(q[0]) && !s'.inVm && Inv(s') && Peers(s', k)
            && (WakeNobody(Dispatch(s), n) ==> s'.queues[READY] == q[1..k] + [q[0]] + q[k..])
  {
    hide Inv, Peers, Finish, RunTicks, SamePeers;
    PeersBounds(s, k);
    var q, d := s.queues[READY], Dispatch(s);
    DispatchPeers(s, k);
    StepKeeps(s, DispatchStep);
    RunTicksPeers(d, n, k);
    var e := RunTicks(d, n);
    SamePeersBoth(d, e, k);
    var q' := e.queues[READY];
    StepKeeps(e, FinishStep(false));
    FinishQueue(e, k);
    FinishKeys(e);
    PeersBounds(e, k);
    PeersAfterTurn(e, Turn(s, n), k);
    assert q'[1..k] == q'[..k][1..] == q[..k][1..] == q[1..k];
    assert (q'[1..k] + [q'[0]] + q'[k..])[..k] == q'[1..k] + [q'[0]];
  }

  lemma {:induction false} DispatchPeers<T>(s: State<T>, k: nat)
    requires Peers(s, k)
    ensures var q := s.queues[READY];
            && q != [] && q[0] in s.tasks && Peers(Dispatch(s), k) && Dispatch(s).queues == s.queues
            && Dispatch(s).current == Some(q[0]) && Dispatch(s).tasks[q[0]].status == Running
  {}

  lemma {:induction false} FinishKeys<T>(d: State<T>)
    requires d.current.Some? && d.current.value in d.tasks
    ensures Finish(d, false).tasks.Keys == d.tasks.Keys
  {}

  lemma {:induction false} PeersBounds<T>(s: State<T>, k: nat)
    requires Peers(s, k)
    ensures 0 < k <= |s.queues[READY]| && s.queues[READY][0] in s.tasks
    ensures forall i :: 0 <= i < k ==> s.queues[READY][i] in s.tasks
  {}

  /** The tasks that consecutive turns of the given lengths run, and the state they lead to. */
  function Turns<T>(s: State<T>, ticks: seq<nat>): (r: (seq<T>, State<T>))
    ensures |r.0| <= |ticks|
    decreases |ticks|
  {
    if ticks == [] || s.queues[READY] == [] || s.queues[READY][0] !in s.tasks then ([], s)
    else
      var (ran, s') := Turns(Turn(s, ticks[0]), ticks[1..]);
      ([s.queues[READY][0]] + ran, s')
  }

  /** No tick of these turns wakes a task of the best priority or better. */
  predicate TurnsWakeOnlyWorse<T>(s: State<T>, ticks: seq<nat>)
    decreases |ticks|
  {
    ticks == [] || s.queues[READY] == [] || s.queues[READY][0] !in s.tasks
    || (WakeOnlyWorse(Dispatch(s), ticks[0]) && TurnsWakeOnlyWorse(Turn(s, ticks[0]), ticks[1..]))
  }

  predicate TurnsWakeNobody<T>(s: State<T>, ticks: seq<nat>)
    decreases |ticks|
  {
    ticks == [] || s.queues[READY] == [] || s.queues[READY][0] !in s.tasks
    || (WakeNobody(Dispatch(s), ticks[0]) && TurnsWakeNobody(Turn(s, ticks[0]), ticks[1..]))
  }

  lemma {:induction false} TurnsRotate<T>(s: State<T>, k: nat, ticks: seq<nat>)
    requires Inv(s) && !s.inVm && Peers(s, k) && |ticks| <= k && TurnsWakeOnlyWorse(s, ticks)
    ensures var n, q := |ticks|, s.queues[READY];
            var (ran, s') := Turns(s, ticks);
            && n <= k <= |q| && k <= |s'.queues[READY]| && Inv(s')
            && ran == q[..n] && s'.queues[READY][..k] == q[n..k] + q[..n]
            && (TurnsWakeNobody(s, ticks) ==> s'.queues[READY] == q[n..k] + q[..n] + q[k..])
    decreases |ticks|
  {
    hide Inv, Peers, Turn, Dispatch, WakeOnlyWorse, WakeNobody;
    var n, q := |ticks|, s.queues[READY];
    PeersBounds(s, k);
    if n == 0 {
      assert q[0..k] + q[..0] == q[..k] && q[..k] + q[k..] == q;
    } else {
      var s1 := Turn(s, ticks[0]);
      TurnRotates(s, k, ticks[0]);
      TurnsRotate(s1, k, ticks[1..]);
      RotateMore(q, s1.queues[READY], k, n);
    }
  }

  /** After one rotation, n - 1 more of them make n. */
  lemma {:induction false} RotateMore<T>(q: seq<T>, q': seq<T>, k: nat, n: nat)
    requires 0 < n <= k <= |q| && k <= |q'| && q'[..k] == q[1..k] + [q[0]]
    ensures [q[0]] + q'[..n - 1] == q[..n] && q'[n - 1..k] + q'[..n - 1] == q[n..k] + q[..n]
    ensures q' == q[1..k] + [q[0]] + q[k..] ==> q'[k..] == q[k..]
  {
    assert q'[..n - 1] == q'[..k][..n - 1] == q[1..n] && [q[0]] + q[1..n] == q[..n];
    assert q'[n - 1..k] == q'[..k][n - 1..] == q[n..k] + [q[0]];
  }

  lemma {:induction false} PeersDiffer<T>(s: State<T>, k: nat)
    requires Inv(s) && k <= |s.queues[READY]|
    ensures NoDuplicates(s.queues[READY][..k])
  {
    assert NoDuplicates(s.queues[READY]);
  }

  /** Round robin: k consecutive turns, with any number of ticks in each that wake no task of that
      priority or a better one, run each of the k best ready tasks exactly once, in queue order, and
      restore their order; if the ticks wake nobody, the whole ready queue is restored. Since turns
      rotate, this holds from any turn on. */
  lemma {:induction false} RoundRobin<T>(s: State<T>, k: nat, ticks: seq<nat>)
    requires Inv(s) && !s.inVm && Peers(s, k) && |ticks| == k && TurnsWakeOnlyWorse(s, ticks)
    ensures var q := s.queues[READY];
            var (ran, s') := Turns(s, ticks);
            && k <= |q| && ran == q[..k] && NoDuplicates(ran)
            && k <= |s'.queues[READY]| && s'.queues[READY][..k] == q[..k]
            && (TurnsWakeNobody(s, ticks) ==> s'.queues[READY] == q)
  {
    hide Inv, Turns, Peers, TurnsWakeOnlyWorse, TurnsWakeNobody;
    TurnsRotate(s, k, ticks);
    var q := s.queues[READY];
    PeersDiffer(s, k);
    assert q[k..k] + q[..k] == q[..k] && q[..k] + q[k..] == q;
  }
}
