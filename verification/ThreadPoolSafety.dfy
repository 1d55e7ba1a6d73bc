/** What every interleaving of the pool keeps, and the guarantees that follow. */
module ThreadPoolSafety {
  import opened Prelude
  import opened ThreadPool

  // ---------------------------------------------------------------- vocabulary

  /** Inside the region counted by `_in_flight`. */
  predicate Counted(w: Worker) {
    w.WRunning? || w.WRan?
  }

  ghost function InRegion(): Worker -> int {
    (w: Worker) => if Counted(w) then 1 else 0
  }

  predicate Carries(w: Worker, t: Task) {
    w == WHeld(t) || w == WRunning(t)
  }

  ghost function Carrying(t: Task): Worker -> int {
    (w: Worker) => if Carries(w, t) then 1 else 0
  }

  /** In how many places task `t` is: queued, carried by workers, executed, discarded. */
  ghost function Copies(s: State, t: Task): int {
    multiset(s.queue)[t] + Sum(s.workers, Carrying(t)) + multiset(s.executed)[t] + multiset(s.discarded)[t]
  }

  /** A submitter that has enqueued and not yet signalled. */
  predicate OwesSignal(c: Client) {
    c.SubmitLock? || c.SubmitSignal?
  }

  /** A worker that has taken a task and not yet announced its completion. */
  predicate OwesBroadcast(w: Worker) {
    w.WHeld? || w.WRunning? || w.WRan? || w.WLockDone? || w.WBroadcast?
  }

  predicate AllExited(s: State) {
    forall i :: 0 <= i < |s.workers| ==> s.workers[i].WExited?
  }

  /** A shutdown that has stored `_off` and not yet joined every worker. */
  predicate ShuttingDown(c: Client) {
    c.DownLock? || c.DownBroadcast? || c.DownUnlock? || c.DownJoin?
  }

  predicate InFree(c: Client) {
    c.FreeTestOff? || c.FreeDrain? || c.Freed?
  }

  // ---------------------------------------------------------------- invariant

  ghost predicate Locks(s: State) {
    && (forall i :: 0 <= i < |s.workers| ==> (Holding(s.workers[i]) <==> s.mutex == WorkerHolds(i)))
    && (forall c :: 0 <= c < |s.clients| ==> (ClientHolding(s.clients[c]) <==> s.mutex == ClientHolds(c)))
    && (s.mutex.WorkerHolds? ==> s.mutex.i < |s.workers|)
    && (s.mutex.ClientHolds? ==> s.mutex.c < |s.clients|)
  }

  ghost predicate FlightCount(s: State) {
    && s.inFlight == Sum(s.workers, InRegion())
    && (s.fused ==> forall i :: 0 <= i < |s.workers| ==> !s.workers[i].WHeld?)
  }

  ghost predicate Conserved(s: State) {
    forall t: Task :: Copies(s, t) == if t < s.next then 1 else 0
  }

  /** Has seen an empty queue, under the mutex, and not yet slept. */
  predicate AboutToSleep(w: Worker) {
    w.WTestOn? || w.WGoSleep?
  }

  predicate AllAsleep(s: State) {
    forall i :: 0 <= i < |s.workers| ==> s.workers[i].WAsleep?
  }

  ghost predicate SleepDecisions(s: State) {
    s.queue != [] && (exists i :: 0 <= i < |s.workers| && AboutToSleep(s.workers[i]))
    ==> exists c :: 0 <= c < |s.clients| && s.clients[c].SubmitLock?
  }

  ghost predicate SignalsPending(s: State) {
    s.queue != [] && AllAsleep(s) ==> exists c :: 0 <= c < |s.clients| && OwesSignal(s.clients[c])
  }

  ghost predicate Unfinished(s: State) {
    s.queue != [] || exists i :: 0 <= i < |s.workers| && OwesBroadcast(s.workers[i])
  }

  ghost predicate BroadcastsPending(s: State) {
    forall c :: 0 <= c < |s.clients| && (s.clients[c].WaitGoSleep? || s.clients[c].WaitAsleep?) ==> Unfinished(s)
  }

  ghost predicate ShutdownOrder(s: State) {
    && (s.off ==> !s.on)
    && (s.quit ==> s.off && forall i :: 0 <= i < |s.workers| ==> !s.workers[i].WAsleep? && !s.workers[i].WGoSleep?)
    && (forall i :: 0 <= i < |s.workers| ==>
          && (s.workers[i].WTestEmptyAgain? || s.workers[i].WUnlockExit? || s.workers[i].WExited? ==> !s.on))
    && (forall c :: 0 <= c < |s.clients| ==>
          && (s.clients[c].DownOff? ==> !s.on)
          && (ShuttingDown(s.clients[c]) ==> s.off)
          && (s.clients[c].DownUnlock? || s.clients[c].DownJoin? ==> s.quit)
          && (s.clients[c].DownJoin? ==>
                && s.clients[c].k <= |s.workers|
                && forall i :: 0 <= i < s.clients[c].k ==> s.workers[i].WExited?))
  }

  ghost predicate OffMeansJoining(s: State) {
    s.off ==> AllExited(s) || exists c :: 0 <= c < |s.clients| && ShuttingDown(s.clients[c])
  }

  ghost predicate FreeAlone(s: State) {
    && (s.freeing == None ==> s.discarded == [])
    && (forall c :: 0 <= c < |s.clients| && InFree(s.clients[c]) ==> s.freeing == Some(c))
    && (s.freeing.Some? ==>
          && s.freeing.value < |s.clients|
          && var f := s.clients[s.freeing.value];
          && (InFree(f) || ShuttingDown(f) || f.DownOn? || f.DownOff?)
          && (forall c :: 0 <= c < |s.clients| && c != s.freeing.value ==> Quiet(s.clients[c]))
          && (f.FreeDrain? || f.Freed? ==> AllExited(s))
          && (f.Freed? ==> s.queue == []))
  }

  ghost predicate WaitPromise(s: State) {
    forall c :: 0 <= c < |s.clients| ==> PromiseOk(s, s.clients[c])
  }

  ghost predicate PromiseOk(s: State, pc: Client) {
    match pc
    case WaitTestFlight(seen) => seen <= s.next && forall t :: 0 <= t < seen ==> t !in s.queue
    case WaitUnlock(seen, gap) => Promise(s, seen, gap)
    case Returned(seen, gap) => Promise(s, seen, gap)
    case _ => true
  }

  ghost predicate Promise(s: State, seen: nat, gap: set<Task>) {
    && seen <= s.next && |gap| <= |s.workers| && (s.fused ==> gap == {})
    && forall t :: 0 <= t < seen ==> t in s.executed || t in gap
  }

  ghost predicate Inv(s: State) {
    && |s.workers| > 0
    && Locks(s) && FlightCount(s) && Conserved(s)
    && SleepDecisions(s) && SignalsPending(s) && BroadcastsPending(s)
    && ShutdownOrder(s) && OffMeansJoining(s) && FreeAlone(s) && WaitPromise(s)
  }

  // ---------------------------------------------------------------- preservation, conjunct by conjunct

  lemma LocksAfterWorker(s: State, i: nat)
    requires Locks(s) && WorkerEnabled(s, i)
    ensures Locks(WorkerStep(s, i))
  {
  }

  lemma LocksAfterClient(s: State, c: nat, pick: nat)
    requires Locks(s) && MoveEnabled(s, c, pick)
    ensures Locks(ClientStep(s, c, pick))
  {
  }

  lemma LocksKept(s: State, step: Step)
    requires Locks(s) && Enabled(s, step)
    ensures Locks(Apply(s, step))
  {
    match step
    case Work(i) => LocksAfterWorker(s, i);
    case Move(c, pick) => LocksAfterClient(s, c, pick);
    case _ =>
  }

  lemma FlightCountKept(s: State, step: Step)
    requires FlightCount(s) && Enabled(s, step)
    ensures FlightCount(Apply(s, step))
  {
    var s' := Apply(s, step);
    match step
    case Work(i) => SumUpdate(s.workers, i, s'.workers[i], InRegion());
    case WakeWorker(i) => SumUpdate(s.workers, i, WWoken, InRegion());
    case Move(c, pick) =>
      if s.clients[c].SubmitSignal? && SomeAsleep(s.workers) {
        SumUpdate(s.workers, pick, WWoken, InRegion());
      } else {
        SumSame(s.workers, s'.workers, InRegion());
      }
    case _ =>
  }

  lemma CountTail(q: seq<Task>, t: Task)
    requires q != []
    ensures multiset(q)[t] == multiset(q[1..])[t] + if q[0] == t then 1 else 0
  {
    assert q == [q[0]] + q[1..];
  }

  lemma CountAppend(q: seq<Task>, x: Task, t: Task)
    ensures multiset(q + [x])[t] == multiset(q)[t] + if x == t then 1 else 0
  {
  }

  ghost function One(b: bool): int {
    if b then 1 else 0
  }

  lemma QueueAfterWorker(s: State, i: nat, t: Task)
    requires WorkerEnabled(s, i)
    ensures multiset(WorkerStep(s, i).queue)[t] ==
            multiset(s.queue)[t] - One(s.workers[i].WDequeue? && s.queue != [] && s.queue[0] == t)
  {
    if s.workers[i].WDequeue? && s.queue != [] {
      CountTail(s.queue, t);
    }
  }

  lemma ExecutedAfterWorker(s: State, i: nat, t: Task)
    requires WorkerEnabled(s, i)
    ensures multiset(WorkerStep(s, i).executed)[t] == multiset(s.executed)[t] + One(s.workers[i] == WRunning(t))
  {
    if s.workers[i].WRunning? {
      CountAppend(s.executed, s.workers[i].task, t);
    }
  }

  lemma CarriedAfterWorker(s: State, i: nat, t: Task)
    requires WorkerEnabled(s, i)
    ensures Sum(WorkerStep(s, i).workers, Carrying(t)) ==
            Sum(s.workers, Carrying(t)) + One(s.workers[i].WDequeue? && s.queue != [] && s.queue[0] == t)
            - One(s.workers[i] == WRunning(t))
  {
    SumUpdate(s.workers, i, WorkerNext(s, s.workers[i]), Carrying(t));
  }

  lemma CopiesAfterWorker(s: State, i: nat, t: Task)
    requires WorkerEnabled(s, i)
    ensures Copies(WorkerStep(s, i), t) == Copies(s, t)
  {
    QueueAfterWorker(s, i, t);
    ExecutedAfterWorker(s, i, t);
    CarriedAfterWorker(s, i, t);
  }

  lemma CopiesAfterClient(s: State, c: nat, pick: nat, t: Task)
    requires MoveEnabled(s, c, pick)
    ensures Copies(ClientStep(s, c, pick), t) ==
            Copies(s, t) + if s.clients[c].SubmitEnqueue? && t == s.next then 1 else 0
  {
    var pc := s.clients[c];
    SumSame(s.workers, ClientStep(s, c, pick).workers, Carrying(t));
    if pc.SubmitEnqueue? {
      CountAppend(s.queue, s.next, t);
    } else if pc.FreeDrain? && s.queue != [] {
      CountTail(s.queue, t);
      CountAppend(s.discarded, s.queue[0], t);
    }
  }

  lemma ConservedKept(s: State, step: Step)
    requires Conserved(s) && Enabled(s, step)
    ensures Conserved(Apply(s, step))
  {
    forall t: Task ensures Copies(Apply(s, step), t) == if t < Apply(s, step).next then 1 else 0 {
      assert Copies(s, t) == if t < s.next then 1 else 0;
      match step
      case Work(i) => CopiesAfterWorker(s, i, t);
      case WakeWorker(i) => SumUpdate(s.workers, i, WWoken, Carrying(t));
      case Move(c, pick) => CopiesAfterClient(s, c, pick, t);
      case Start(c, op) => assert Copies(Apply(s, step), t) == Copies(s, t);
      case WakeClient(c) => assert Copies(Apply(s, step), t) == Copies(s, t);
    }
  }

  /** A submitter about to signal stays so until it has signalled. */
  lemma SignalStillOwed(s: State, step: Step)
    requires Enabled(s, step)
    requires exists c :: 0 <= c < |s.clients| && OwesSignal(s.clients[c])
    ensures (exists c :: 0 <= c < |s.clients| && OwesSignal(Apply(s, step).clients[c]))
            || (step.Move? && s.clients[step.c].SubmitSignal?)
  {
    var c :| 0 <= c < |s.clients| && OwesSignal(s.clients[c]);
    if !(step.Move? && s.clients[step.c].SubmitSignal?) {
      assert OwesSignal(Apply(s, step).clients[c]);
    }
  }

  /** While a worker holds the mutex, a submitter waiting for it keeps waiting. */
  lemma SubmitLockStays(s: State, step: Step)
    requires Enabled(s, step) && s.mutex.WorkerHolds?
    requires exists c :: 0 <= c < |s.clients| && s.clients[c].SubmitLock?
    ensures exists c :: 0 <= c < |s.clients| && Apply(s, step).clients[c].SubmitLock?
  {
    var c :| 0 <= c < |s.clients| && s.clients[c].SubmitLock?;
    assert Apply(s, step).clients[c].SubmitLock?;
  }

  lemma SleepDecisionsKept(s: State, step: Step)
    requires Locks(s) && SleepDecisions(s) && Enabled(s, step)
    ensures SleepDecisions(Apply(s, step))
  {
    var s' := Apply(s, step);
    if s'.queue != [] {
      if w :| 0 <= w < |s'.workers| && AboutToSleep(s'.workers[w]) {
        if AboutToSleep(s.workers[w]) {
          assert s.mutex == WorkerHolds(w);
          if s.queue != [] {
            SubmitLockStays(s, step);
          } else {
            assert s'.clients[step.c].SubmitLock?;
          }
        }
      }
    }
  }

  lemma SignalsPendingKept(s: State, step: Step)
    requires |s.workers| > 0 && Locks(s) && SleepDecisions(s) && SignalsPending(s) && Enabled(s, step)
    ensures SignalsPending(Apply(s, step))
  {
    var s' := Apply(s, step);
    if s'.queue != [] && AllAsleep(s') {
      assert s'.workers[0].WAsleep?;
      if s.queue == [] {
        assert OwesSignal(s'.clients[step.c]);
      } else {
        if !AllAsleep(s) {
          var w :| 0 <= w < |s.workers| && !s.workers[w].WAsleep?;
          assert s'.workers[w].WAsleep?;
          assert AboutToSleep(s.workers[w]);
          var c :| 0 <= c < |s.clients| && s.clients[c].SubmitLock?;
          assert OwesSignal(s.clients[c]);
        }
        SignalStillOwed(s, step);
      }
    }
  }

  lemma BroadcastsPendingAfterWorker(s: State, i: nat)
    requires Locks(s) && BroadcastsPending(s) && WorkerEnabled(s, i)
    ensures BroadcastsPending(WorkerStep(s, i))
  {
    var s' := WorkerStep(s, i);
    forall c | 0 <= c < |s'.clients| && (s'.clients[c].WaitGoSleep? || s'.clients[c].WaitAsleep?)
      ensures Unfinished(s')
    {
      assert s.clients[c] == s'.clients[c];
      if s.queue != [] {
        assert s'.queue != [] || OwesBroadcast(s'.workers[i]);
      } else {
        var w :| 0 <= w < |s.workers| && OwesBroadcast(s.workers[w]);
        assert !s.workers[i].WBroadcast?;
        assert OwesBroadcast(s'.workers[w]);
      }
    }
  }

  lemma BroadcastsPendingAfterClient(s: State, d: nat, pick: nat)
    requires Locks(s) && FlightCount(s) && FreeAlone(s) && BroadcastsPending(s) && MoveEnabled(s, d, pick)
    ensures BroadcastsPending(ClientStep(s, d, pick))
  {
    var s' := ClientStep(s, d, pick);
    forall c | 0 <= c < |s'.clients| && (s'.clients[c].WaitGoSleep? || s'.clients[c].WaitAsleep?)
      ensures Unfinished(s')
    {
      if s.queue != [] {
        assert s'.queue != [];
      } else if s.clients[c].WaitGoSleep? || s.clients[c].WaitAsleep? {
        var w :| 0 <= w < |s.workers| && OwesBroadcast(s.workers[w]);
        assert OwesBroadcast(s'.workers[w]);
      } else {
        var w := SumToWitness(s.workers, InRegion(), |s.workers|);
        assert OwesBroadcast(s'.workers[w]);
      }
    }
  }

  lemma BroadcastsPendingKept(s: State, step: Step)
    requires Locks(s) && FlightCount(s) && FreeAlone(s) && BroadcastsPending(s) && Enabled(s, step)
    ensures BroadcastsPending(Apply(s, step))
  {
    match step
    case Work(i) => BroadcastsPendingAfterWorker(s, i);
    case Move(c, pick) => BroadcastsPendingAfterClient(s, c, pick);
    case Start(c, op) =>
      if w :| 0 <= w < |s.workers| && OwesBroadcast(s.workers[w]) {
        assert OwesBroadcast(Apply(s, step).workers[w]);
      }
    case WakeClient(c) =>
      if w :| 0 <= w < |s.workers| && OwesBroadcast(s.workers[w]) {
        assert OwesBroadcast(Apply(s, step).workers[w]);
      }
    case WakeWorker(i) =>
      if w :| 0 <= w < |s.workers| && OwesBroadcast(s.workers[w]) {
        assert OwesBroadcast(Apply(s, step).workers[w]);
      }
  }

  lemma ShutdownOrderAfterWorker(s: State, i: nat)
    requires Locks(s) && ShutdownOrder(s) && WorkerEnabled(s, i)
    ensures ShutdownOrder(WorkerStep(s, i))
  {
  }

  lemma ShutdownOrderAfterClient(s: State, c: nat, pick: nat)
    requires Locks(s) && ShutdownOrder(s) && MoveEnabled(s, c, pick)
    ensures ShutdownOrder(ClientStep(s, c, pick))
  {
  }

  lemma ShutdownOrderKept(s: State, step: Step)
    requires Locks(s) && ShutdownOrder(s) && Enabled(s, step)
    ensures ShutdownOrder(Apply(s, step))
  {
    match step
    case Work(i) => ShutdownOrderAfterWorker(s, i);
    case Move(c, pick) => ShutdownOrderAfterClient(s, c, pick);
    case _ =>
  }

  lemma OffMeansJoiningKept(s: State, step: Step)
    requires ShutdownOrder(s) && OffMeansJoining(s) && Enabled(s, step)
    ensures OffMeansJoining(Apply(s, step))
  {
    var s' := Apply(s, step);
    if s'.off {
      if !s.off {
        assert ShuttingDown(s'.clients[step.c]);
      } else if AllExited(s) {
        assert AllExited(s');
      } else {
        var c :| 0 <= c < |s.clients| && ShuttingDown(s.clients[c]);
        assert ShuttingDown(s'.clients[c]) || AllExited(s');
      }
    }
  }

  lemma FreeAloneAfterClient(s: State, c: nat, pick: nat)
    requires Locks(s) && ShutdownOrder(s) && OffMeansJoining(s) && FreeAlone(s) && MoveEnabled(s, c, pick)
    ensures FreeAlone(ClientStep(s, c, pick))
  {
    if s.freeing.Some? {
      assert c == s.freeing.value;
      if s.clients[c].FreeTestOff? && s.off {
        assert forall d :: 0 <= d < |s.clients| ==> !ShuttingDown(s.clients[d]);
      }
      FreeCallerMoves(s, c, pick);
    } else {
      NobodyFrees(s, c, pick);
    }
  }

  lemma NobodyFrees(s: State, c: nat, pick: nat)
    requires FreeAlone(s) && s.freeing == None && MoveEnabled(s, c, pick)
    ensures FreeAlone(ClientStep(s, c, pick))
  {
  }

  lemma FreeCallerMoves(s: State, c: nat, pick: nat)
    requires ShutdownOrder(s) && FreeAlone(s) && s.freeing == Some(c) && MoveEnabled(s, c, pick)
    requires s.clients[c].FreeTestOff? && s.off ==> AllExited(s)
    ensures FreeAlone(ClientStep(s, c, pick))
  {
  }

  lemma FreeAloneKept(s: State, step: Step)
    requires Locks(s) && ShutdownOrder(s) && OffMeansJoining(s) && FreeAlone(s) && Enabled(s, step)
    ensures FreeAlone(Apply(s, step))
  {
    match step
    case Move(c, pick) => FreeAloneAfterClient(s, c, pick);
    case _ =>
  }

  /** A task that has left the queue before the emptiness test is executed, or held and uncounted, at the final test. */
  lemma LeftQueue(s: State, t: Task)
    requires Conserved(s) && FlightCount(s) && s.discarded == []
    requires t < s.next && t !in s.queue && s.inFlight <= 0
    ensures t in s.executed <==> t !in HeldTasks(s.workers)
  {
    assert Copies(s, t) == 1;
    if t !in s.executed {
      var w := SumToWitness(s.workers, Carrying(t), |s.workers|);
      if s.workers[w] == WRunning(t) {
        SumToBounds(s.workers, InRegion(), |s.workers|);
      }
    } else if t in HeldTasks(s.workers) {
      var w :| 0 <= w < |s.workers| && s.workers[w] == WHeld(t);
      SumToBounds(s.workers, Carrying(t), |s.workers|);
    }
  }

  lemma WaitPromiseAfterWorker(s: State, i: nat)
    requires WaitPromise(s) && WorkerEnabled(s, i)
    ensures WaitPromise(WorkerStep(s, i))
  {
    var s' := WorkerStep(s, i);
    assert forall t :: t in s.executed ==> t in s'.executed;
    assert forall t :: t in s'.queue ==> t in s.queue;
    forall c | 0 <= c < |s'.clients| && s'.clients[c] == s.clients[c]
      ensures s'.clients[c].WaitTestFlight? ==> forall t :: 0 <= t < s'.clients[c].seen ==> t !in s'.queue
    {
    }
    assert forall seen, gap :: Promise(s, seen, gap) ==> Promise(s', seen, gap);
  }

  /** A promise survives whatever finishes tasks, takes them out of the queue or adds new ones. */
  lemma PromiseGrows(s: State, s': State, pc: Client)
    requires PromiseOk(s, pc) && s.next <= s'.next && |s'.workers| == |s.workers| && s'.fused == s.fused
    requires forall t :: t in s.executed ==> t in s'.executed
    requires forall t :: t in s'.queue ==> t in s.queue || t >= s.next
    ensures PromiseOk(s', pc)
  {
  }

  /** The step that makes the promise, and the steps that carry it to the return. */
  lemma PromiseMade(s: State, pc: Client)
    requires Conserved(s) && FlightCount(s) && s.discarded == [] && PromiseOk(s, pc)
    requires forall t :: t in s.queue ==> t < s.next
    ensures PromiseOk(s, ClientNext(s, pc))
  {
    if pc.WaitTestFlight? && s.inFlight <= 0 {
      forall t | 0 <= t < pc.seen ensures t in s.executed || t in HeldTasks(s.workers) {
        LeftQueue(s, t);
      }
      if s.fused {
        assert HeldTasks(s.workers) == {};
      }
    }
  }

  lemma QueuedAreOld(s: State, t: Task)
    requires Conserved(s) && t in s.queue
    ensures t < s.next
  {
    assert Copies(s, t) == if t < s.next then 1 else 0;
    SumToBounds(s.workers, Carrying(t), |s.workers|);
  }

  lemma WaitPromiseAfterClient(s: State, c: nat, pick: nat)
    requires Inv(s) && MoveEnabled(s, c, pick)
    ensures WaitPromise(ClientStep(s, c, pick))
  {
    var s' := ClientStep(s, c, pick);
    assert forall t :: t in s'.queue ==> t in s.queue || t == s.next;
    forall t | t in s.queue ensures t < s.next {
      QueuedAreOld(s, t);
    }
    forall d | 0 <= d < |s'.clients| ensures PromiseOk(s', s'.clients[d]) {
      assert PromiseOk(s, s.clients[d]);
      if d == c && s.clients[c].WaitTestFlight? {
        assert s.discarded == [];
        PromiseMade(s, s.clients[c]);
        PromiseGrows(s, s', s'.clients[c]);
      } else if d == c {
        ClientPromise(s, s.clients[c]);
        PromiseGrows(s, s', s'.clients[c]);
      } else {
        PromiseGrows(s, s', s.clients[d]);
      }
    }
  }

  lemma ClientPromise(s: State, pc: Client)
    requires PromiseOk(s, pc) && !pc.WaitTestFlight? && forall t :: t in s.queue ==> t < s.next
    ensures PromiseOk(s, ClientNext(s, pc))
  {
  }

  lemma WaitPromiseKept(s: State, step: Step)
    requires Inv(s) && Enabled(s, step)
    ensures WaitPromise(Apply(s, step))
  {
    match step
    case Work(i) => WaitPromiseAfterWorker(s, i);
    case Move(c, pick) => WaitPromiseAfterClient(s, c, pick);
    case _ => WaitPromiseAside(s, step);
  }

  lemma WaitPromiseAside(s: State, step: Step)
    requires WaitPromise(s) && Enabled(s, step) && !step.Work? && !step.Move?
    ensures WaitPromise(Apply(s, step))
  {
    var s' := Apply(s, step);
    forall c | 0 <= c < |s'.clients| ensures PromiseOk(s', s'.clients[c]) {
      PromiseGrows(s, s', s.clients[c]);
    }
  }

  lemma Inductive(s: State, step: Step)
    requires Inv(s) && Enabled(s, step)
    ensures Inv(Apply(s, step))
  {
    LocksKept(s, step);
    FlightCountKept(s, step);
    ConservedKept(s, step);
    SleepDecisionsKept(s, step);
    SignalsPendingKept(s, step);
    BroadcastsPendingKept(s, step);
    ShutdownOrderKept(s, step);
    OffMeansJoiningKept(s, step);
    FreeAloneKept(s, step);
    WaitPromiseKept(s, step);
  }

  lemma {:induction false} Initially(n: nat, m: nat, fused: bool)
    requires n > 0
    ensures Inv(Init(n, m, fused))
  {
    var s := Init(n, m, fused);
    SumToZero(s.workers, InRegion(), |s.workers|);
    forall t: Task ensures Copies(s, t) == 0 {
      SumToZero(s.workers, Carrying(t), |s.workers|);
    }
  }

  lemma {:induction false} RunKeepsInv(s: State, steps: seq<Step>, s': State)
    requires Inv(s) && Run(s, steps, s')
    ensures Inv(s')
    decreases |steps|
  {
    if steps != [] {
      Inductive(s, steps[0]);
      RunKeepsInv(Apply(s, steps[0]), steps[1..], s');
    }
  }

  lemma ReachableInv(s: State)
    requires Reachable(s)
    ensures Inv(s)
  {
    var n: nat, m: nat, fused: bool, steps: seq<Step> :| n > 0 && Run(Init(n, m, fused), steps, s);
    Initially(n, m, fused);
    RunKeepsInv(Init(n, m, fused), steps, s);
  }
}
