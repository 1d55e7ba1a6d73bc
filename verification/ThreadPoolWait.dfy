/** What becomes of a `wait` in progress once shutdown has emptied the pool of its workers. */
module ThreadPoolWait {
  import opened Prelude
  import opened ThreadPool
  import opened ThreadPoolSafety
  import opened ThreadPoolTheorems

  /** A `wait` call that has not passed its emptiness test. */
  predicate StillWaiting(c: Client) {
    c.WaitLock? || c.WaitTestEmpty? || c.WaitGoSleep? || c.WaitAsleep? || c.WaitWoken?
  }

  /** A `wait` call that has. */
  predicate PastTest(c: Client) {
    c.WaitTestFlight? || c.WaitUnlock?
  }

  predicate InWait(c: Client) {
    StillWaiting(c) || PastTest(c)
  }

  /** The workers are gone, a task is left, and client `c` waits for it. */
  predicate Stranded(s: State, c: nat) {
    AllExited(s) && s.queue != [] && c < |s.clients| && StillWaiting(s.clients[c])
  }

  /** Free is called alone, so there is none while somebody waits. */
  predicate NoFree(s: State) {
    s.freeing == None && forall d :: 0 <= d < |s.clients| ==> !InFree(s.clients[d])
  }

  lemma WaiterExcludesFree(s: State, c: nat)
    requires FreeAlone(s) && c < |s.clients| && InWait(s.clients[c])
    ensures NoFree(s)
  {
  }

  // ---------------------------------------------------------------- a task left behind

  lemma StrandedStep(s: State, step: Step, c: nat)
    requires Stranded(s, c) && NoFree(s) && Enabled(s, step)
    ensures Stranded(Apply(s, step), c) && NoFree(Apply(s, step))
  {
  }

  lemma {:induction false} StrandedRun(s: State, steps: seq<Step>, s': State, c: nat)
    requires Stranded(s, c) && NoFree(s) && Run(s, steps, s')
    ensures Stranded(s', c)
    decreases |steps|
  {
    if steps != [] {
      StrandedStep(s, steps[0], c);
      StrandedRun(Apply(s, steps[0]), steps[1..], s', c);
    }
  }

  /** If shutdown leaves a task in the queue, a `wait` that has not passed its emptiness test never returns. */
  lemma WaitHangsAfterShutdown(s: State, steps: seq<Step>, s': State, c: nat)
    requires Reachable(s) && Stranded(s, c) && Run(s, steps, s')
    ensures Stranded(s', c)
  {
    ReachableInv(s);
    WaiterExcludesFree(s, c);
    StrandedRun(s, steps, s', c);
  }

  // ---------------------------------------------------------------- it happens

  /** One worker and one calling thread; task 0 is queued. */
  function Going(w: Worker, c: Client, mutex: Holder, on: bool, off: bool, quit: bool): State {
    State([w], [c], [0], mutex, on, off, 0, 1, [], [], quit, None, false)
  }

  lemma GoingWork(w: Worker, c: Client, mutex: Holder)
    requires Reachable(Going(w, c, mutex, false, true, true))
    requires w.WLock? || w.WTestEmpty? || w.WTestOff? || w.WUnlockExit?
    requires w.WLock? ==> mutex == NoOne
    ensures Reachable(Going(WorkerNext(Going(w, c, mutex, false, true, true), w), c,
                            if w.WLock? then WorkerHolds(0) else if w.WUnlockExit? then NoOne else mutex,
                            false, true, true))
  {
    var s := Going(w, c, mutex, false, true, true);
    ReachableThen(s, Work(0));
    assert [w][0 := WorkerNext(s, w)] == [WorkerNext(s, w)];
  }

  lemma GoingMove(w: Worker, c: Client, mutex: Holder, on: bool, off: bool, quit: bool)
    requires Reachable(Going(w, c, mutex, on, off, quit)) && !w.WAsleep?
    requires c.DownOn? || c.DownOff? || c.DownLock? || c.DownBroadcast? || c.DownUnlock? || c.DownJoin?
    requires c.DownLock? ==> mutex == NoOne
    requires c.DownJoin? && c.k < 1 ==> w.WExited?
    ensures Reachable(Going(w, ClientNext(Going(w, c, mutex, on, off, quit), c),
                            if c.DownLock? then ClientHolds(0) else if c.DownUnlock? then NoOne else mutex,
                            on && !c.DownOn?, off || c.DownOff?, quit || c.DownBroadcast?))
  {
    var s := Going(w, c, mutex, on, off, quit);
    assert s.workers[0] == w;
    ReachableThen(s, Move(0, 0));
    assert [c][0 := ClientNext(s, c)] == [ClientNext(s, c)];
    assert WakeWorkers([w]) == [w];
  }

  lemma GoingStart(w: Worker, on: bool, off: bool, quit: bool, op: Op)
    requires Reachable(Going(w, Idle, NoOne, on, off, quit)) && !op.Free?
    ensures Reachable(Going(w, Entry(op), NoOne, on, off, quit))
  {
    ReachableThen(Going(w, Idle, NoOne, on, off, quit), Start(0, op));
    assert [Idle][0 := Entry(op)] == [Entry(op)];
  }

  lemma GoingStarted()
    ensures Reachable(Going(WLock, DownOn, NoOne, true, false, false))
  {
    SubmitOne();
    assert Small(WLock, Idle, [0], NoOne, 1) == Going(WLock, Idle, NoOne, true, false, false);
    GoingStart(WLock, true, false, false, Shutdown);
  }

  lemma GoingOff()
    ensures Reachable(Going(WLock, DownLock, NoOne, false, true, false))
  {
    GoingStarted();
    GoingMove(WLock, DownOn, NoOne, true, false, false);
    GoingMove(WLock, DownOff, NoOne, false, false, false);
  }

  lemma GoingBroadcast()
    ensures Reachable(Going(WLock, DownUnlock, ClientHolds(0), false, true, true))
  {
    GoingOff();
    GoingMove(WLock, DownLock, NoOne, false, true, false);
    GoingMove(WLock, DownBroadcast, ClientHolds(0), false, true, false);
  }

  lemma GoingTests()
    ensures Reachable(Going(WTestEmpty, DownJoin(0), WorkerHolds(0), false, true, true))
  {
    GoingBroadcast();
    GoingMove(WLock, DownUnlock, ClientHolds(0), false, true, true);
    GoingWork(WLock, DownJoin(0), NoOne);
  }

  lemma GoingTested()
    ensures Reachable(Going(WUnlockExit, DownJoin(0), WorkerHolds(0), false, true, true))
  {
    GoingTests();
    GoingWork(WTestEmpty, DownJoin(0), WorkerHolds(0));
    GoingWork(WTestOff, DownJoin(0), WorkerHolds(0));
  }

  lemma GoingExits()
    ensures Reachable(Going(WExited, DownJoin(0), NoOne, false, true, true))
  {
    GoingTested();
    GoingWork(WUnlockExit, DownJoin(0), WorkerHolds(0));
  }

  /** A submit, a shutdown that returns before the worker looks, and a `wait`: the wait is stranded. */
  lemma WaitCanHang()
    ensures exists s :: Reachable(s) && s.off && s.clients == [WaitLock] && s.queue == [0] && Stranded(s, 0)
  {
    GoingExits();
    GoingMove(WExited, DownJoin(0), NoOne, false, true, true);
    GoingMove(WExited, DownJoin(1), NoOne, false, true, true);
    GoingStart(WExited, false, true, true, Wait);
    var s := Going(WExited, WaitLock, NoOne, false, true, true);
    assert Reachable(s) && Stranded(s, 0);
  }

  // ---------------------------------------------------------------- and exactly when

  /** A submitter that has passed its test of `_off` and not yet enqueued. */
  predicate Committed(s: State) {
    exists d :: 0 <= d < |s.clients| && s.clients[d].SubmitEnqueue?
  }

  /** The wait has passed its test, or nothing is queued and nobody is committed to queue anything. */
  predicate Safe(s: State, c: nat)
    requires c < |s.clients|
  {
    PastTest(s.clients[c]) || (s.queue == [] && !Committed(s))
  }

  /** After shutdown: `_off` is stored and the workers have exited. */
  ghost predicate Over(s: State) {
    Inv(s) && s.off && AllExited(s)
  }

  /** Steps of its own that a safe wait still needs. */
  function StepsLeft(c: Client): nat {
    match c
    case WaitLock => 4
    case WaitWoken => 4
    case WaitTestEmpty => 3
    case WaitTestFlight(_) => 2
    case WaitUnlock(_, _) => 1
    case _ => 0
  }

  lemma NobodyCounted(s: State)
    requires Over(s)
    ensures s.inFlight == 0
  {
    SumToZero(s.workers, InRegion(), |s.workers|);
  }

  /** A safe wait does not sleep, and is not about to. */
  lemma SafeIsAwake(s: State, c: nat)
    requires Over(s) && c < |s.clients| && InWait(s.clients[c]) && Safe(s, c)
    ensures !s.clients[c].WaitAsleep? && !s.clients[c].WaitGoSleep?
  {
  }

  /** A safe wait stays safe whatever is called, and each of its own steps brings it closer to its return. */
  lemma SafeStep(s: State, step: Step, c: nat)
    requires Over(s) && c < |s.clients| && InWait(s.clients[c]) && Safe(s, c) && Enabled(s, step)
    ensures c < |Apply(s, step).clients| && Apply(s, step).off && AllExited(Apply(s, step))
    ensures
      var next := Apply(s, step).clients[c];
      && (next.Returned? || (InWait(next) && Safe(Apply(s, step), c)))
      && StepsLeft(next) == StepsLeft(s.clients[c]) - if step.Move? && step.c == c then 1 else 0
  {
    NobodyCounted(s);
    SafeIsAwake(s, c);
    WaiterExcludesFree(s, c);
    if s.queue == [] && !Committed(s) {
      QueueStaysEmpty(s, step);
    }
  }

  /** With `_off` stored only a committed submitter can add to the queue, and nobody becomes one. */
  lemma QueueStaysEmpty(s: State, step: Step)
    requires s.off && AllExited(s) && s.queue == [] && !Committed(s) && Enabled(s, step)
    ensures Apply(s, step).queue == [] && !Committed(Apply(s, step))
  {
  }

  /** Client `c` begins no new call along a run. */
  predicate SameCall(steps: seq<Step>, c: nat) {
    forall k :: 0 <= k < |steps| && steps[k].Start? ==> steps[k].c != c
  }

  /** How many steps of its own client `c` takes along a run. */
  function OwnSteps(steps: seq<Step>, c: nat): nat {
    if steps == [] then 0 else (if steps[0].Move? && steps[0].c == c then 1 else 0) + OwnSteps(steps[1..], c)
  }

  lemma {:induction false} SafeRun(s: State, steps: seq<Step>, s': State, c: nat)
    requires Over(s) && c < |s.clients| && InWait(s.clients[c]) && Safe(s, c) && Run(s, steps, s')
    requires SameCall(steps, c)
    ensures c < |s'.clients|
    ensures s'.clients[c].Returned? || (Over(s') && InWait(s'.clients[c]) && Safe(s', c))
    ensures StepsLeft(s'.clients[c]) == 0 ==> s'.clients[c].Returned?
    ensures StepsLeft(s'.clients[c]) + OwnSteps(steps, c) == StepsLeft(s.clients[c])
    decreases |steps|
  {
    if steps != [] {
      SafeStep(s, steps[0], c);
      Inductive(s, steps[0]);
      if Apply(s, steps[0]).clients[c].Returned? {
        ReturnedStays(Apply(s, steps[0]), steps[1..], s', c);
      } else {
        SafeRun(Apply(s, steps[0]), steps[1..], s', c);
      }
    } else {
      SafeIsAwake(s, c);
    }
  }

  lemma {:induction false} ReturnedStays(s: State, steps: seq<Step>, s': State, c: nat)
    requires c < |s.clients| && s.clients[c].Returned? && Run(s, steps, s')
    requires SameCall(steps, c)
    ensures c < |s'.clients| && s'.clients[c] == s.clients[c] && OwnSteps(steps, c) == 0
    decreases |steps|
  {
    if steps != [] {
      ReturnedStays(Apply(s, steps[0]), steps[1..], s', c);
    }
  }

  /**
    After shutdown a `wait` can be stranded exactly when it has not passed its emptiness test and a task
    is queued or a submitter is committed to queue one: that submitter passed its test of `_off` before
    the shutdown and may enqueue after the join.
   */
  lemma StrandedExactly(s: State, c: nat)
    requires Reachable(s) && s.off && AllExited(s) && c < |s.clients| && InWait(s.clients[c])
    ensures !Safe(s, c) <==>
      exists steps: seq<Step>, s': State :: Run(s, steps, s') && SameCall(steps, c) && Stranded(s', c)
  {
    ReachableInv(s);
    if Safe(s, c) {
      forall steps: seq<Step>, s': State | Run(s, steps, s') && SameCall(steps, c) ensures !Stranded(s', c) {
        SafeRun(s, steps, s', c);
      }
    } else {
      var steps, s' := UnsafeStrands(s, c);
      assert Run(s, steps, s') && SameCall(steps, c) && Stranded(s', c);
    }
  }

  lemma UnsafeStrands(s: State, c: nat) returns (steps: seq<Step>, s': State)
    requires Over(s) && c < |s.clients| && InWait(s.clients[c]) && !Safe(s, c)
    ensures Run(s, steps, s') && SameCall(steps, c) && Stranded(s', c)
  {
    if s.queue != [] {
      steps, s' := [], s;
    } else {
      var d :| 0 <= d < |s.clients| && s.clients[d].SubmitEnqueue?;
      s' := Apply(s, Move(d, 0));
      steps := [Move(d, 0)];
      assert Run(s', [], s');
    }
  }

  /** A safe `wait` takes at most four more steps of its own, whatever else runs, and then has returned. */
  lemma SafeWaitBound(s: State, steps: seq<Step>, s': State, c: nat)
    requires Reachable(s) && s.off && AllExited(s) && c < |s.clients| && InWait(s.clients[c]) && Safe(s, c)
    requires Run(s, steps, s') && SameCall(steps, c)
    ensures c < |s'.clients| && StepsLeft(s'.clients[c]) + OwnSteps(steps, c) == StepsLeft(s.clients[c]) <= 4
    ensures s'.clients[c].Returned? || (InWait(s'.clients[c]) && Safe(s', c))
    ensures StepsLeft(s'.clients[c]) == 0 ==> s'.clients[c].Returned?
  {
    ReachableInv(s);
    SafeIsAwake(s, c);
    SafeRun(s, steps, s', c);
  }

  /** Steps until the thread that holds the mutex lets go of it. */
  function HoldLeft(s: State): nat {
    if !s.mutex.ClientHolds? || s.mutex.c >= |s.clients| then 0
    else
      match s.clients[s.mutex.c]
      case WaitTestEmpty => 3
      case WaitTestFlight(_) => 2
      case SubmitSignal => 2
      case DownBroadcast => 2
      case _ => 1
  }

  /** It does return: there is a run in which it has. */
  lemma SafeWaitReturns(s: State, c: nat)
    requires Reachable(s) && s.off && AllExited(s) && c < |s.clients| && InWait(s.clients[c]) && Safe(s, c)
    ensures exists steps, s' :: Run(s, steps, s') && c < |s'.clients| && s'.clients[c].Returned?
  {
    ReachableInv(s);
    var steps, s' := RunThrough(s, c);
  }

  /** The holder of the mutex lets go, then the wait runs through. */
  lemma {:induction false} RunThrough(s: State, c: nat) returns (steps: seq<Step>, s': State)
    requires Over(s) && c < |s.clients| && InWait(s.clients[c]) && Safe(s, c)
    ensures Run(s, steps, s') && c < |s'.clients| && s'.clients[c].Returned?
    decreases StepsLeft(s.clients[c]), HoldLeft(s)
  {
    SafeIsAwake(s, c);
    var d := if s.mutex.ClientHolds? then s.mutex.c else c;
    HolderMoves(s, d, c);
    SafeStep(s, Move(d, 0), c);
    Inductive(s, Move(d, 0));
    var next := Apply(s, Move(d, 0));
    if next.clients[c].Returned? {
      assert Run(next, [], next);
      steps, s' := [Move(d, 0)], next;
    } else {
      var rest;
      rest, s' := RunThrough(next, c);
      steps := [Move(d, 0)] + rest;
    }
  }

  /** The client that holds the mutex, or the wait itself when it is free, can step, and gets closer to letting go. */
  lemma HolderMoves(s: State, d: nat, c: nat)
    requires Over(s) && c < |s.clients| && InWait(s.clients[c]) && Safe(s, c)
    requires d == if s.mutex.ClientHolds? then s.mutex.c else c
    ensures Enabled(s, Move(d, 0))
    ensures d != c ==> HoldLeft(Apply(s, Move(d, 0))) < HoldLeft(s)
  {
    SafeIsAwake(s, c);
  }
}
