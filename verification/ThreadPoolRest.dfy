/**
  The pool comes to rest. When no further call begins and nothing wakes up for no reason, every run is
  finite, and at its end every accepted task has been executed and every call has returned.
 */
module ThreadPoolRest {
  import opened Prelude
  import opened ThreadPool
  import opened ThreadPoolSafety
  import opened ThreadPoolTheorems

  /** A caller that is in no shutdown and no free. */
  predicate Ordinary(c: Client) {
    || Quiet(c) || c.SubmitTestOff? || c.SubmitEnqueue? || c.SubmitLock? || c.SubmitSignal? || c.SubmitUnlock?
    || c.WaitLock? || c.WaitTestEmpty? || c.WaitTestFlight? || c.WaitGoSleep? || c.WaitAsleep? || c.WaitWoken? || c.WaitUnlock?
  }

  /** The pool is on and nobody is shutting it down. */
  predicate InService(s: State) {
    s.on && !s.off && s.freeing == None && forall c :: 0 <= c < |s.clients| ==> Ordinary(s.clients[c])
  }

  /** A step of a worker or of a call in progress: no new call, no spurious wake-up. */
  predicate Proper(step: Step) {
    step.Work? || step.Move?
  }

  // ---------------------------------------------------------------- the measure

  /** Steps a worker still takes without a further task, when the queue is `busy` or empty. */
  function Rank(busy: bool, w: Worker): nat {
    match w
    case WAsleep => 0
    case WGoSleep => 1
    case WTestOn => 2
    case WTestEmpty => if busy then 5 else 3
    case WLock => if busy then 6 else 4
    case WWoken => if busy then 6 else 4
    case WUnlockDone => if busy then 7 else 5
    case WBroadcast => if busy then 8 else 6
    case WLockDone => if busy then 9 else 7
    case WRan => if busy then 10 else 8
    case WRunning(_) => if busy then 11 else 9
    case WHeld(_) => if busy then 12 else 10
    case WDequeue => if busy then 1 else 5
    case WUnlockGo => if busy then 2 else 6
    case WTestOnAgain => if busy then 3 else 7
    case WTestOff => if busy then 4 else 8
    case _ => 0
  }

  ghost function RankWhen(busy: bool): Worker -> int {
    (w: Worker) => Rank(busy, w)
  }

  /** What a queued task is worth: more than all the steps that taking it can set off. */
  function Worth(s: State): nat {
    12 * |s.workers| + 8
  }

  /** What a submitter can still set off: a task and a signal, or a signal. */
  function Owed(worth: nat, c: Client): nat {
    if c.SubmitTestOff? || c.SubmitEnqueue? then 2 * worth else if c.SubmitLock? || c.SubmitSignal? then 7 else 0
  }

  ghost function OwedAt(worth: nat): Client -> int {
    (c: Client) => Owed(worth, c)
  }

  /** A bound on the steps of the workers. */
  ghost function WorkLeft(s: State): int {
    Worth(s) * |s.queue| + Sum(s.clients, OwedAt(Worth(s))) + Sum(s.workers, RankWhen(s.queue != []))
  }

  /** Steps a call still takes unless a broadcast wakes it. */
  function CallLeft(c: Client): nat {
    match c
    case SubmitTestOff => 5
    case SubmitEnqueue => 4
    case SubmitLock => 3
    case SubmitSignal => 2
    case SubmitUnlock => 1
    case WaitLock => 5
    case WaitWoken => 5
    case WaitTestEmpty => 4
    case WaitTestFlight(_) => 3
    case WaitGoSleep => 2
    case WaitUnlock(_, _) => 2
    case _ => 0
  }

  ghost function CallsLeft(): Client -> int {
    (c: Client) => CallLeft(c)
  }

  /** A bound on all steps: one of a worker may wake every call. */
  ghost function StepsLeft(s: State): int {
    (5 * |s.clients| + 1) * WorkLeft(s) + Sum(s.clients, CallsLeft())
  }

  lemma RanksBounded(s: State, busy: bool)
    ensures 0 <= Sum(s.workers, RankWhen(busy)) <= 12 * |s.workers|
  {
    SumToBounds(s.workers, RankWhen(busy), |s.workers|);
    SumToBounded(s.workers, RankWhen(busy), 12, |s.workers|);
  }

  // ---------------------------------------------------------------- a step of a worker

  /** A worker that does not take a task gets closer to its sleep. */
  lemma RankFalls(s: State, i: nat)
    requires InService(s) && ShutdownOrder(s) && WorkerEnabled(s, i) && !(s.workers[i].WDequeue? && s.queue != [])
    ensures Rank(s.queue != [], WorkerNext(s, s.workers[i])) < Rank(s.queue != [], s.workers[i])
  {
  }

  lemma WorkFalls(s: State, i: nat)
    requires InService(s) && ShutdownOrder(s) && WorkerEnabled(s, i)
    ensures WorkLeft(WorkerStep(s, i)) < WorkLeft(s)
  {
    var s' := WorkerStep(s, i);
    OwedUnwoken(s, i);
    if s.workers[i].WDequeue? && s.queue != [] {
      RanksBounded(s', s'.queue != []);
      RanksBounded(s, s.queue != []);
      assert Worth(s) * |s.queue| == Worth(s) * |s'.queue| + Worth(s);
    } else {
      RankFalls(s, i);
      SumUpdate(s.workers, i, WorkerNext(s, s.workers[i]), RankWhen(s.queue != []));
    }
  }

  /** A broadcast wakes waiters, who owe nothing. */
  lemma OwedUnwoken(s: State, i: nat)
    requires WorkerEnabled(s, i)
    ensures Sum(WorkerStep(s, i).clients, OwedAt(Worth(s))) == Sum(s.clients, OwedAt(Worth(s)))
    ensures |WorkerStep(s, i).clients| == |s.clients|
    ensures Sum(WorkerStep(s, i).clients, CallsLeft()) <= Sum(s.clients, CallsLeft()) + 5 * |s.clients|
  {
    var s' := WorkerStep(s, i);
    SumSame(s.clients, s'.clients, OwedAt(Worth(s)));
    WokenAtMost(s.clients, s'.clients, |s.clients|);
  }

  lemma {:induction false} WokenAtMost(cs: seq<Client>, ds: seq<Client>, n: nat)
    requires n <= |cs| == |ds|
    requires forall c :: 0 <= c < |cs| ==> ds[c] == cs[c] || (cs[c].WaitAsleep? && ds[c].WaitWoken?)
    ensures SumTo(ds, CallsLeft(), n) <= SumTo(cs, CallsLeft(), n) + 5 * n
  {
    if n > 0 {
      WokenAtMost(cs, ds, n - 1);
    }
  }

  // ---------------------------------------------------------------- a step of a call

  /** A call in progress never adds work: a task it enqueues was already accounted for twice over. */
  lemma WorkNotRaised(s: State, c: nat, pick: nat)
    requires InService(s) && MoveEnabled(s, c, pick)
    ensures WorkLeft(ClientStep(s, c, pick)) <= WorkLeft(s)
  {
    var s' := ClientStep(s, c, pick);
    var worth := Worth(s);
    SumUpdate(s.clients, c, s'.clients[c], OwedAt(worth));
    if s.clients[c].SubmitEnqueue? {
      RanksBounded(s, true);
      RanksBounded(s, s.queue != []);
      assert worth * |s'.queue| == worth * |s.queue| + worth;
    } else if s.clients[c].SubmitSignal? {
      SignalWakesOne(s, pick);
    }
  }

  lemma SignalWakesOne(s: State, pick: nat)
    ensures Sum(WakeOne(s.workers, pick), RankWhen(s.queue != [])) <= Sum(s.workers, RankWhen(s.queue != [])) + 6
  {
    if pick < |s.workers| && s.workers[pick].WAsleep? {
      SumUpdate(s.workers, pick, WWoken, RankWhen(s.queue != []));
    }
  }

  lemma CallFalls(s: State, c: nat, pick: nat)
    requires InService(s) && MoveEnabled(s, c, pick)
    ensures |ClientStep(s, c, pick).clients| == |s.clients|
    ensures Sum(ClientStep(s, c, pick).clients, CallsLeft()) < Sum(s.clients, CallsLeft())
  {
    CallCloser(s, s.clients[c]);
    SumUpdate(s.clients, c, ClientNext(s, s.clients[c]), CallsLeft());
  }

  lemma CallCloser(s: State, pc: Client)
    requires !s.off && Ordinary(pc) && !Quiet(pc) && !pc.WaitAsleep?
    ensures CallLeft(ClientNext(s, pc)) < CallLeft(pc)
  {
  }

  // ---------------------------------------------------------------- every run is finite

  lemma ServiceKept(s: State, step: Step)
    requires InService(s) && Enabled(s, step) && Proper(step)
    ensures InService(Apply(s, step))
  {
  }

  lemma MeasuresPositive(s: State)
    ensures WorkLeft(s) >= 0 && StepsLeft(s) >= 0
  {
    RanksBounded(s, s.queue != []);
    SumToBounds(s.clients, OwedAt(Worth(s)), |s.clients|);
    SumToBounds(s.clients, CallsLeft(), |s.clients|);
    assert (5 * |s.clients| + 1) * WorkLeft(s) >= 0;
  }

  lemma WorkerStepsFall(s: State, i: nat)
    requires InService(s) && ShutdownOrder(s) && WorkerEnabled(s, i)
    ensures StepsLeft(WorkerStep(s, i)) < StepsLeft(s)
  {
    WorkFalls(s, i);
    OwedUnwoken(s, i);
    Scaled(5 * |s.clients| + 1, WorkLeft(WorkerStep(s, i)), WorkLeft(s) - 1);
  }

  lemma CallStepsFall(s: State, c: nat, pick: nat)
    requires InService(s) && MoveEnabled(s, c, pick)
    ensures StepsLeft(ClientStep(s, c, pick)) < StepsLeft(s)
  {
    WorkNotRaised(s, c, pick);
    CallFalls(s, c, pick);
    Scaled(5 * |s.clients| + 1, WorkLeft(ClientStep(s, c, pick)), WorkLeft(s));
  }

  lemma StepsFall(s: State, step: Step)
    requires InService(s) && ShutdownOrder(s) && Enabled(s, step) && Proper(step)
    ensures StepsLeft(Apply(s, step)) < StepsLeft(s)
  {
    match step
    case Work(i) => WorkerStepsFall(s, i);
    case Move(c, pick) => CallStepsFall(s, c, pick);
  }

  lemma Scaled(k: nat, a: int, b: int)
    requires a <= b
    ensures k * a <= k * b
  {
  }

  lemma {:induction false} RunFalls(s: State, steps: seq<Step>, s': State)
    requires Inv(s) && InService(s) && Run(s, steps, s') && forall k :: 0 <= k < |steps| ==> Proper(steps[k])
    ensures Inv(s') && InService(s') && StepsLeft(s') + |steps| <= StepsLeft(s)
    decreases |steps|
  {
    if steps != [] {
      ServiceKept(s, steps[0]);
      StepsFall(s, steps[0]);
      Inductive(s, steps[0]);
      RunFalls(Apply(s, steps[0]), steps[1..], s');
    }
  }

  /** Without new calls and spurious wake-ups no run of a pool in service is longer than its measure. */
  lemma RunsAreFinite(s: State, steps: seq<Step>, s': State)
    requires Reachable(s) && InService(s) && Run(s, steps, s') && forall k :: 0 <= k < |steps| ==> Proper(steps[k])
    ensures InService(s') && |steps| <= StepsLeft(s)
  {
    ReachableInv(s);
    RunFalls(s, steps, s');
    MeasuresPositive(s');
  }

  // ---------------------------------------------------------------- and ends well

  /** No worker and no call can take a step. */
  ghost predicate AtRest(s: State) {
    forall step :: Proper(step) ==> !Enabled(s, step)
  }

  /** At rest nobody holds the mutex, every worker sleeps and every call has returned or sleeps in `wait`. */
  lemma RestIsSleep(s: State)
    requires Inv(s) && InService(s) && AtRest(s)
    ensures s.mutex == NoOne && AllAsleep(s)
    ensures forall c :: 0 <= c < |s.clients| ==> Quiet(s.clients[c]) || s.clients[c].WaitAsleep?
  {
    if s.mutex != NoOne {
      var step := HolderSteps(s);
    }
    forall i | 0 <= i < |s.workers| ensures s.workers[i].WAsleep? {
      assert !Enabled(s, Work(i));
    }
    forall c | 0 <= c < |s.clients| ensures Quiet(s.clients[c]) || s.clients[c].WaitAsleep? {
      assert !Enabled(s, Move(c, 0));
    }
  }

  /** Whoever holds the mutex can step. */
  lemma HolderSteps(s: State) returns (step: Step)
    requires Inv(s) && InService(s) && s.mutex != NoOne
    ensures Proper(step) && Enabled(s, step)
  {
    match s.mutex
    case WorkerHolds(i) =>
      assert Holding(s.workers[i]);
      step := Work(i);
    case ClientHolds(c) =>
      assert ClientHolding(s.clients[c]);
      var pick := PickAsleep(s);
      step := Move(c, pick);
  }

  /** At rest every accepted task has been executed, exactly once, and every call has returned. */
  lemma RestIsDone(s: State)
    requires Reachable(s) && InService(s) && AtRest(s)
    ensures s.queue == [] && AllAsleep(s)
    ensures forall t :: 0 <= t < s.next ==> multiset(s.executed)[t] == 1
    ensures forall c :: 0 <= c < |s.clients| ==> Quiet(s.clients[c])
  {
    ReachableInv(s);
    RestIsSleep(s);
    assert s.queue == [];
    assert !Unfinished(s);
    forall t | 0 <= t < s.next ensures multiset(s.executed)[t] == 1 {
      assert Copies(s, t) == 1;
      SumToZero(s.workers, Carrying(t), |s.workers|);
    }
  }

  /** So a pool left alone does come to rest, with everything done. */
  lemma ComesToRest(s: State) returns (steps: seq<Step>, s': State)
    requires Reachable(s) && InService(s)
    ensures Run(s, steps, s') && (forall k :: 0 <= k < |steps| ==> Proper(steps[k])) && |steps| <= StepsLeft(s)
    ensures AtRest(s') && s'.next >= s.next && s'.queue == []
    ensures forall t :: 0 <= t < s'.next ==> multiset(s'.executed)[t] == 1
    ensures forall c :: 0 <= c < |s'.clients| ==> Quiet(s'.clients[c])
    decreases StepsLeft(s)
  {
    MeasuresPositive(s);
    if AtRest(s) {
      steps, s' := [], s;
      RestIsDone(s);
    } else {
      var step :| Proper(step) && Enabled(s, step);
      ReachableInv(s);
      ServiceKept(s, step);
      StepsFall(s, step);
      ReachableThen(s, step);
      MeasuresPositive(Apply(s, step));
      var rest;
      rest, s' := ComesToRest(Apply(s, step));
      steps := [step] + rest;
      assert steps[1..] == rest;
    }
  }
}
