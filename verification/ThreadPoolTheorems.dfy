/** The pool's guarantees, over every reachable state and every run. */
module ThreadPoolTheorems {
  import opened Prelude
  import opened ThreadPool
  import opened ThreadPoolSafety

  // ---------------------------------------------------------------- runs

  lemma {:induction false} RunThen(s: State, steps: seq<Step>, mid: State, step: Step)
    requires Run(s, steps, mid) && Enabled(mid, step)
    ensures Run(s, steps + [step], Apply(mid, step))
    decreases |steps|
  {
    if steps == [] {
      assert (steps + [step])[1..] == [];
    } else {
      assert (steps + [step])[1..] == steps[1..] + [step];
      RunThen(Apply(s, steps[0]), steps[1..], mid, step);
    }
  }

  lemma ReachableThen(s: State, step: Step)
    requires Reachable(s) && Enabled(s, step)
    ensures Reachable(Apply(s, step))
  {
    var n: nat, m: nat, fused: bool, steps: seq<Step> :| n > 0 && Run(Init(n, m, fused), steps, s);
    RunThen(Init(n, m, fused), steps, s, step);
  }

  // ---------------------------------------------------------------- wake-ups

  /** No signal and no broadcast is lost, in any interleaving. */
  lemma NoLostWakeup(s: State)
    requires Reachable(s)
    ensures s.queue != [] && AllAsleep(s) ==> exists c :: 0 <= c < |s.clients| && OwesSignal(s.clients[c])
    ensures forall c :: 0 <= c < |s.clients| && s.clients[c].WaitAsleep? ==> Unfinished(s)
  {
    ReachableInv(s);
  }

  /** While the pool is on, a queued task always leaves some thread able to move. */
  lemma QueuedTaskNeverStuck(s: State) returns (step: Step)
    requires Reachable(s) && s.on && s.queue != []
    ensures Enabled(s, step) && (step.Work? || step.Move?)
  {
    ReachableInv(s);
    if s.mutex.WorkerHolds? {
      step := Work(s.mutex.i);
    } else if s.mutex.ClientHolds? {
      var pick := PickAsleep(s);
      step := Move(s.mutex.c, pick);
    } else if AllAsleep(s) {
      var c :| 0 <= c < |s.clients| && OwesSignal(s.clients[c]);
      step := Move(c, 0);
    } else {
      var i :| 0 <= i < |s.workers| && !s.workers[i].WAsleep?;
      step := Work(i);
    }
  }

  lemma PickAsleep(s: State) returns (pick: nat)
    ensures SomeAsleep(s.workers) ==> pick < |s.workers| && s.workers[pick].WAsleep?
  {
    pick := 0;
    if SomeAsleep(s.workers) {
      pick :| pick < |s.workers| && s.workers[pick].WAsleep?;
    }
  }

  // ---------------------------------------------------------------- counting and waiting

  /** `_in_flight` is exactly the number of workers between its increment and its decrement, so it never underflows. */
  lemma InFlightExact(s: State)
    requires Reachable(s)
    ensures s.inFlight == Sum(s.workers, InRegion())
    ensures 0 <= s.inFlight <= |s.workers|
  {
    ReachableInv(s);
    SumToBounds(s.workers, InRegion(), |s.workers|);
    SumToBounded(s.workers, InRegion(), 1, |s.workers|);
  }

  /** When `wait` returns, every task enqueued before its final emptiness test is finished, except those in the gap. */
  lemma WaitReturns(s: State, c: nat)
    requires Reachable(s) && c < |s.clients| && s.clients[c].Returned?
    ensures |s.clients[c].gap| <= |s.workers|
    ensures forall t :: 0 <= t < s.clients[c].seen ==> t in s.executed || t in s.clients[c].gap
    ensures s.fused ==> forall t :: 0 <= t < s.clients[c].seen ==> t in s.executed
  {
    ReachableInv(s);
  }

  /** At the test that lets `wait` return, a task seen by it is unfinished exactly when a worker holds it uncounted. */
  lemma WaitFinalTest(s: State, c: nat)
    requires Reachable(s) && c < |s.clients| && s.clients[c].WaitTestFlight? && s.inFlight <= 0
    ensures forall t :: 0 <= t < s.clients[c].seen ==> (t in s.executed <==> t !in HeldTasks(s.workers))
    ensures (forall t :: 0 <= t < s.clients[c].seen ==> t in s.executed)
            <==> (forall i :: 0 <= i < |s.workers| && s.workers[i].WHeld? ==> s.workers[i].task >= s.clients[c].seen)
  {
    ReachableInv(s);
    forall t | 0 <= t < s.clients[c].seen ensures t in s.executed <==> t !in HeldTasks(s.workers) {
      LeftQueue(s, t);
    }
    forall i | 0 <= i < |s.workers| && s.workers[i].WHeld?
      ensures s.workers[i].task in HeldTasks(s.workers)
    {
    }
    if t :| 0 <= t < s.clients[c].seen && t !in s.executed {
      assert t in HeldTasks(s.workers);
      var i :| 0 <= i < |s.workers| && s.workers[i] == WHeld(t);
      assert s.workers[i].WHeld? && s.workers[i].task < s.clients[c].seen;
    }
  }

  /** One worker, one calling thread, nothing finished yet. */
  function Small(w: Worker, c: Client, queue: seq<Task>, mutex: Holder, next: nat): State {
    State([w], [c], queue, mutex, true, false, 0, next, [], [], false, None, false)
  }

  lemma SmallWork(w: Worker, c: Client, queue: seq<Task>, mutex: Holder, next: nat)
    requires Reachable(Small(w, c, queue, mutex, next))
    requires w.WLock? || w.WTestEmpty? || w.WTestOff? || w.WTestOnAgain? || w.WUnlockGo? || w.WDequeue?
    requires w.WLock? ==> mutex == NoOne
    ensures Reachable(Small(WorkerNext(Small(w, c, queue, mutex, next), w), c,
                            if w.WDequeue? && queue != [] then queue[1..] else queue,
                            if w.WLock? then WorkerHolds(0) else if w.WUnlockGo? then NoOne else mutex, next))
  {
    var s := Small(w, c, queue, mutex, next);
    ReachableThen(s, Work(0));
    assert s.workers[0 := WorkerNext(s, w)] == [WorkerNext(s, w)];
  }

  lemma SmallMove(w: Worker, c: Client, queue: seq<Task>, mutex: Holder, next: nat)
    requires Reachable(Small(w, c, queue, mutex, next))
    requires !w.WAsleep? && !Quiet(c) && !c.WaitAsleep? && (c.SubmitTestOff? || c.SubmitEnqueue? || c.SubmitLock?
              || c.SubmitSignal? || c.SubmitUnlock? || c.WaitLock? || c.WaitTestEmpty? || c.WaitTestFlight? || c.WaitUnlock?)
    requires ClientNeedsMutex(c) ==> mutex == NoOne
    ensures Reachable(Small(w, ClientNext(Small(w, c, queue, mutex, next), c),
                            if c.SubmitEnqueue? then queue + [next] else queue,
                            if ClientNeedsMutex(c) then ClientHolds(0) else if ClientReleases(c) then NoOne else mutex,
                            if c.SubmitEnqueue? then next + 1 else next))
  {
    var s := Small(w, c, queue, mutex, next);
    assert s.workers[0] == w;
    ReachableThen(s, Move(0, 0));
    assert s.clients[0 := ClientNext(s, c)] == [ClientNext(s, c)];
  }

  lemma SmallStart(w: Worker, queue: seq<Task>, next: nat, op: Op)
    requires Reachable(Small(w, Idle, queue, NoOne, next)) && (op.Submit? || op.Wait?)
    ensures Reachable(Small(w, Entry(op), queue, NoOne, next))
  {
    ReachableThen(Small(w, Idle, queue, NoOne, next), Start(0, op));
    assert [Idle][0 := Entry(op)] == [Entry(op)];
  }

  lemma StartOne()
    ensures Reachable(Small(WLock, SubmitTestOff, [], NoOne, 0))
  {
    assert Init(1, 1, false) == Small(WLock, Idle, [], NoOne, 0);
    assert Run(Init(1, 1, false), [], Small(WLock, Idle, [], NoOne, 0));
    SmallStart(WLock, [], 0, Submit);
  }

  lemma EnqueueOne()
    ensures Reachable(Small(WLock, SubmitLock, [0], NoOne, 1))
  {
    StartOne();
    SmallMove(WLock, SubmitTestOff, [], NoOne, 0);
    SmallMove(WLock, SubmitEnqueue, [], NoOne, 0);
    assert [] + [0] == [0];
  }

  lemma SubmitOne()
    ensures Reachable(Small(WLock, Idle, [0], NoOne, 1))
  {
    EnqueueOne();
    SmallMove(WLock, SubmitLock, [0], NoOne, 1);
    SmallMove(WLock, SubmitSignal, [0], ClientHolds(0), 1);
    SmallMove(WLock, SubmitUnlock, [0], ClientHolds(0), 1);
  }

  lemma TestOne()
    ensures Reachable(Small(WTestOnAgain, Idle, [0], WorkerHolds(0), 1))
  {
    SubmitOne();
    SmallWork(WLock, Idle, [0], NoOne, 1);
    SmallWork(WTestEmpty, Idle, [0], WorkerHolds(0), 1);
    SmallWork(WTestOff, Idle, [0], WorkerHolds(0), 1);
  }

  lemma GoOne()
    ensures Reachable(Small(WDequeue, Idle, [0], NoOne, 1))
  {
    TestOne();
    SmallWork(WTestOnAgain, Idle, [0], WorkerHolds(0), 1);
    SmallWork(WUnlockGo, Idle, [0], WorkerHolds(0), 1);
  }

  lemma TakeOne()
    ensures Reachable(Small(WHeld(0), Idle, [], NoOne, 1))
  {
    GoOne();
    SmallWork(WDequeue, Idle, [0], NoOne, 1);
    assert [0][1..] == [];
  }

  lemma PassTest()
    ensures Reachable(Small(WHeld(0), WaitTestFlight(1), [], ClientHolds(0), 1))
  {
    TakeOne();
    SmallStart(WHeld(0), [], 1, Wait);
    SmallMove(WHeld(0), WaitLock, [], NoOne, 1);
    SmallMove(WHeld(0), WaitTestEmpty, [], ClientHolds(0), 1);
  }

  /** The gap is real: `wait` can return while the one task submitted before it has not even started. */
  lemma WaitCanReturnEarly()
    ensures exists s :: Reachable(s) && !s.fused && s.clients == [Returned(1, {0})] && s.executed == []
  {
    PassTest();
    SmallMove(WHeld(0), WaitTestFlight(1), [], ClientHolds(0), 1);
    assert HeldTasks([WHeld(0)]) == {0};
    SmallMove(WHeld(0), WaitUnlock(1, {0}), [], ClientHolds(0), 1);
    assert Reachable(Small(WHeld(0), Returned(1, {0}), [], NoOne, 1));
  }

  // ---------------------------------------------------------------- conservation and shutdown

  /** Every accepted task is in exactly one place, once, and nothing else is anywhere. */
  lemma TaskConservation(s: State, t: Task)
    requires Reachable(s)
    ensures multiset(s.queue)[t] + Sum(s.workers, Carrying(t)) + multiset(s.executed)[t] + multiset(s.discarded)[t]
            == if t < s.next then 1 else 0
  {
    ReachableInv(s);
    assert Copies(s, t) == if t < s.next then 1 else 0;
  }

  /** After `free`, every accepted task has either run exactly once or been discarded exactly once. */
  lemma FreeSettlesEveryTask(s: State, c: nat, t: Task)
    requires Reachable(s) && c < |s.clients| && s.clients[c].Freed? && t < s.next
    ensures multiset(s.executed)[t] + multiset(s.discarded)[t] == 1
  {
    ReachableInv(s);
    assert Copies(s, t) == 1;
    assert AllExited(s);
    SumToZero(s.workers, Carrying(t), |s.workers|);
  }

  /** A shutdown that has joined every worker leaves none running. */
  lemma JoinedMeansExited(s: State, c: nat)
    requires Reachable(s) && c < |s.clients| && s.clients[c] == DownJoin(|s.workers|)
    ensures AllExited(s)
  {
    ReachableInv(s);
  }

  /** Once the workers have exited no task runs again, whatever is called. */
  lemma {:induction false} NothingRunsAfterJoin(s: State, steps: seq<Step>, s': State)
    requires AllExited(s) && Run(s, steps, s')
    ensures AllExited(s') && s'.executed == s.executed
    decreases |steps|
  {
    if steps != [] {
      assert AllExited(Apply(s, steps[0])) && Apply(s, steps[0]).executed == s.executed;
      NothingRunsAfterJoin(Apply(s, steps[0]), steps[1..], s');
    }
  }

  // ---------------------------------------------------------------- shutdown terminates

  /** Steps a worker can still take once shutdown has broadcast. */
  function Rank(w: Worker): nat {
    match w
    case WExited => 0
    case WUnlockExit => 1
    case WTestOff => 2
    case WTestOn => 3
    case WTestEmpty => 4
    case WLock => 5
    case WWoken => 5
    case WUnlockDone => 6
    case WBroadcast => 7
    case WLockDone => 8
    case WRan => 9
    case WRunning(_) => 10
    case WHeld(_) => 11
    case WDequeue => 12
    case WUnlockGo => 13
    case WTestEmptyAgain => 14
    case WTestOnAgain => 15
    case WGoSleep => 15
    case WAsleep => 15
  }

  ghost function RankOf(): Worker -> int {
    (w: Worker) => Rank(w)
  }

  ghost function Measure(s: State): int {
    Sum(s.workers, RankOf())
  }

  function WorkSteps(steps: seq<Step>): nat {
    if steps == [] then 0 else (if steps[0].Work? then 1 else 0) + WorkSteps(steps[1..])
  }

  lemma MeasureStep(s: State, step: Step)
    requires Inv(s) && s.quit && Enabled(s, step)
    ensures Apply(s, step).quit
    ensures Measure(Apply(s, step)) <= Measure(s) - if step.Work? then 1 else 0
  {
    match step
    case Work(i) =>
      assert Rank(WorkerNext(s, s.workers[i])) < Rank(s.workers[i]);
      SumUpdate(s.workers, i, WorkerNext(s, s.workers[i]), RankOf());
    case Move(c, pick) => SumSame(s.workers, Apply(s, step).workers, RankOf());
    case _ => SumSame(s.workers, Apply(s, step).workers, RankOf());
  }

  /** After shutdown's broadcast no worker sleeps, and workers take at most 15 steps each, whatever else runs. */
  lemma ShutdownBoundsWork(s: State, steps: seq<Step>, s': State)
    requires Reachable(s) && s.quit && Run(s, steps, s')
    ensures s'.quit && forall i :: 0 <= i < |s'.workers| ==> !s'.workers[i].WAsleep?
    ensures Measure(s') + WorkSteps(steps) <= Measure(s) <= 15 * |s.workers|
    ensures Measure(s') >= 0 && (Measure(s') == 0 ==> AllExited(s'))
  {
    ReachableInv(s);
    MeasureRun(s, steps, s');
  }

  lemma {:induction false} MeasureRun(s: State, steps: seq<Step>, s': State)
    requires Inv(s) && s.quit && Run(s, steps, s')
    ensures s'.quit && forall i :: 0 <= i < |s'.workers| ==> !s'.workers[i].WAsleep?
    ensures Measure(s') + WorkSteps(steps) <= Measure(s) <= 15 * |s.workers|
    ensures Measure(s') >= 0 && (Measure(s') == 0 ==> AllExited(s'))
    decreases |steps|
  {
    SumToBounded(s.workers, RankOf(), 15, |s.workers|);
    if steps == [] {
      SumToBounds(s.workers, RankOf(), |s.workers|);
    } else {
      Inductive(s, steps[0]);
      MeasureStep(s, steps[0]);
      MeasureRun(Apply(s, steps[0]), steps[1..], s');
    }
  }

  /** Until all have exited, a worker can step, or the thread that holds the mutex can. */
  lemma ShutdownProgress(s: State) returns (step: Step)
    requires Reachable(s) && s.quit && !AllExited(s)
    ensures Enabled(s, step) && (step.Work? || (step.Move? && s.mutex == ClientHolds(step.c)))
  {
    ReachableInv(s);
    var i :| 0 <= i < |s.workers| && !s.workers[i].WExited?;
    if s.mutex.WorkerHolds? {
      step := Work(s.mutex.i);
    } else if s.mutex.ClientHolds? {
      var pick := PickAsleep(s);
      step := Move(s.mutex.c, pick);
    } else {
      step := Work(i);
    }
  }

  /** How often worker `i` takes a task out of the queue along a run. */
  ghost function Takes(s: State, steps: seq<Step>, i: nat): nat
    decreases |steps|
  {
    if steps == [] || !Enabled(s, steps[0]) then 0
    else
      (if steps[0] == Work(i) && s.workers[i].WDequeue? && s.queue != [] then 1 else 0)
      + Takes(Apply(s, steps[0]), steps[1..], i)
  }

  lemma RankStep(s: State, step: Step, i: nat)
    requires ShutdownOrder(s) && s.quit && Enabled(s, step) && i < |s.workers|
    ensures Rank(Apply(s, step).workers[i]) <= Rank(s.workers[i])
    ensures step == Work(i) && s.workers[i].WDequeue? ==> Rank(Apply(s, step).workers[i]) < 12
  {
  }

  /** After the broadcast each worker starts at most one more task. */
  lemma AtMostOneMoreTask(s: State, steps: seq<Step>, s': State, i: nat)
    requires Reachable(s) && s.quit && Run(s, steps, s') && i < |s.workers|
    ensures Takes(s, steps, i) <= if Rank(s.workers[i]) >= 12 then 1 else 0
  {
    ReachableInv(s);
    TakesRun(s, steps, s', i);
  }

  lemma {:induction false} TakesRun(s: State, steps: seq<Step>, s': State, i: nat)
    requires Inv(s) && s.quit && Run(s, steps, s') && i < |s.workers|
    ensures Takes(s, steps, i) <= if Rank(s.workers[i]) >= 12 then 1 else 0
    decreases |steps|
  {
    if steps != [] {
      var s1 := Apply(s, steps[0]);
      Inductive(s, steps[0]);
      MeasureStep(s, steps[0]);
      RankStep(s, steps[0], i);
      TakesRun(s1, steps[1..], s', i);
    }
  }
}
