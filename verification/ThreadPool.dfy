/**
 * The worker pool of src/thread_pool.c as a step system.  A step is one shared-memory access of
 * the C code: a mutex operation, a condition-variable operation, one atomic load or store, or one
 * call on the synchronised task queue.  Any number of workers and of calling threads interleave,
 * and every condition wait may wake up spuriously.
 */
module ThreadPool {
  import opened Prelude

  /** Tasks are numbered in the order in which they enter the queue. */
  type Task = nat

  /** Where a worker stands in `_dispatcher_function`. */
  datatype Worker =
    | WLock                      // lock the pool mutex at the top of the loop
    | WTestEmpty                 // the wait loop's test of the queue
    | WTestOn                    // the wait loop's test of `_on`; the queue was seen empty
    | WGoSleep                   // both tests say wait
    | WAsleep                    // waiting on `_new_task`, not signalled
    | WWoken                     // signalled, the mutex is not yet reacquired
    | WTestOff                   // test of `_off`
    | WTestOnAgain               // `!_on && empty`, first half
    | WTestEmptyAgain            // `!_on && empty`, second half
    | WUnlockExit
    | WExited
    | WUnlockGo
    | WDequeue
    | WHeld(task: Task)          // dequeued, not yet counted in `_in_flight`
    | WRunning(task: Task)       // counted, the task function has not returned
    | WRan                       // the task function has returned, still counted
    | WLockDone
    | WBroadcast
    | WUnlockDone

  /** Where a calling thread stands in submit, wait, shutdown or free. */
  datatype Client =
    | Idle
    | SubmitTestOff | SubmitEnqueue | SubmitLock | SubmitSignal | SubmitUnlock
    | WaitLock | WaitTestEmpty
    | WaitTestFlight(seen: nat)                     // tasks below `seen` had been enqueued at the test
    | WaitGoSleep | WaitAsleep | WaitWoken
    | WaitUnlock(seen: nat, gap: set<Task>)         // `gap`: tasks held uncounted at the final test
    | Returned(seen: nat, gap: set<Task>)
    | DownOn | DownOff | DownLock | DownBroadcast | DownUnlock | DownJoin(k: nat)
    | FreeTestOff | FreeDrain | Freed

  datatype Holder = NoOne | WorkerHolds(i: nat) | ClientHolds(c: nat)

  /**
   * `executed`, `discarded` and `quit` (a shutdown broadcast has happened) are history.
   * `fused` selects the variant in which a worker dequeues and counts a task in one step; the
   * source is `fused == false`.
   */
  datatype State = State(
    workers: seq<Worker>, clients: seq<Client>, queue: seq<Task>, mutex: Holder,
    on: bool, off: bool, inFlight: int,
    next: Task, executed: seq<Task>, discarded: seq<Task>,
    quit: bool, freeing: Option<nat>, fused: bool)

  datatype Op = Submit | Wait | Shutdown | Free

  /** `pick` resolves which sleeping worker a signal wakes. */
  datatype Step =
    | Work(i: nat)
    | WakeWorker(i: nat)
    | Start(c: nat, op: Op)
    | Move(c: nat, pick: nat)
    | WakeClient(c: nat)

  predicate Holding(w: Worker) {
    w.WTestEmpty? || w.WTestOn? || w.WGoSleep? || w.WTestOff? || w.WTestOnAgain? || w.WTestEmptyAgain?
    || w.WUnlockExit? || w.WUnlockGo? || w.WBroadcast? || w.WUnlockDone?
  }

  predicate ClientHolding(c: Client) {
    c.SubmitSignal? || c.SubmitUnlock? || c.WaitTestEmpty? || c.WaitTestFlight? || c.WaitGoSleep? || c.WaitUnlock?
    || c.DownBroadcast? || c.DownUnlock?
  }

  predicate NeedsMutex(w: Worker) {
    w.WLock? || w.WWoken? || w.WLockDone?
  }

  predicate ClientNeedsMutex(c: Client) {
    c.SubmitLock? || c.WaitLock? || c.WaitWoken? || c.DownLock?
  }

  predicate Releases(w: Worker) {
    w.WGoSleep? || w.WUnlockExit? || w.WUnlockGo? || w.WUnlockDone?
  }

  predicate ClientReleases(c: Client) {
    c.SubmitUnlock? || c.WaitGoSleep? || c.WaitUnlock? || c.DownUnlock?
  }

  /** Between calls. */
  predicate Quiet(c: Client) {
    c.Idle? || c.Returned?
  }

  function WakeWorkers(ws: seq<Worker>): (r: seq<Worker>)
    ensures |r| == |ws|
    ensures forall i :: 0 <= i < |ws| ==> r[i] == if ws[i].WAsleep? then WWoken else ws[i]
  {
    seq(|ws|, i requires 0 <= i < |ws| => if ws[i].WAsleep? then WWoken else ws[i])
  }

  function WakeOne(ws: seq<Worker>, pick: nat): (r: seq<Worker>)
    ensures |r| == |ws|
    ensures forall i :: 0 <= i < |ws| ==> r[i] == if i == pick && ws[i].WAsleep? then WWoken else ws[i]
  {
    if pick < |ws| && ws[pick].WAsleep? then ws[pick := WWoken] else ws
  }

  function WakeWaiters(cs: seq<Client>): (r: seq<Client>)
    ensures |r| == |cs|
    ensures forall c :: 0 <= c < |cs| ==> r[c] == if cs[c].WaitAsleep? then WaitWoken else cs[c]
  {
    seq(|cs|, c requires 0 <= c < |cs| => if cs[c].WaitAsleep? then WaitWoken else cs[c])
  }

  /** The tasks that the first `n` workers have dequeued and not yet counted. */
  function HeldBefore(ws: seq<Worker>, n: nat): (r: set<Task>)
    requires n <= |ws|
    ensures |r| <= n
    ensures forall i :: 0 <= i < n && ws[i].WHeld? ==> ws[i].task in r
    ensures forall t :: t in r ==> exists i :: 0 <= i < n && ws[i] == WHeld(t)
  {
    if n == 0 then {}
    else if ws[n - 1].WHeld? then HeldBefore(ws, n - 1) + {ws[n - 1].task}
    else HeldBefore(ws, n - 1)
  }

  /** The tasks dequeued but not yet counted. */
  function HeldTasks(ws: seq<Worker>): (r: set<Task>)
    ensures |r| <= |ws|
    ensures forall i :: 0 <= i < |ws| && ws[i].WHeld? ==> ws[i].task in r
    ensures forall t :: t in r ==> exists i :: 0 <= i < |ws| && ws[i] == WHeld(t)
  {
    HeldBefore(ws, |ws|)
  }

  predicate WorkerEnabled(s: State, i: nat) {
    && i < |s.workers|
    && !s.workers[i].WAsleep? && !s.workers[i].WExited?
    && (NeedsMutex(s.workers[i]) ==> s.mutex == NoOne)
  }

  /** The pc after one step of `_dispatcher_function`. */
  function WorkerNext(s: State, w: Worker): Worker {
    match w
    case WLock => WTestEmpty
    case WTestEmpty => if s.queue == [] then WTestOn else WTestOff
    case WTestOn => if s.on then WGoSleep else WTestOff
    case WGoSleep => WAsleep
    case WAsleep => WWoken
    case WWoken => WTestEmpty
    case WTestOff => if s.off then WUnlockExit else WTestOnAgain
    case WTestOnAgain => if s.on then WUnlockGo else WTestEmptyAgain
    case WTestEmptyAgain => if s.queue == [] then WUnlockExit else WUnlockGo
    case WUnlockExit => WExited
    case WExited => WExited
    case WUnlockGo => WDequeue
    case WDequeue =>
      if s.queue == [] then WLock else if s.fused then WRunning(s.queue[0]) else WHeld(s.queue[0])
    case WHeld(t) => WRunning(t)
    case WRunning(_) => WRan
    case WRan => WLockDone
    case WLockDone => WBroadcast
    case WBroadcast => WUnlockDone
    case WUnlockDone => WLock
  }

  /** What a step of worker `i` does to each shared variable. */
  function WorkerStep(s: State, i: nat): State
    requires WorkerEnabled(s, i)
  {
    var w := s.workers[i];
    var takes := w.WDequeue? && s.queue != [];
    s.(
    workers := s.workers[i := WorkerNext(s, w)],
    mutex := if NeedsMutex(w) then WorkerHolds(i) else if Releases(w) then NoOne else s.mutex,
    queue := if takes then s.queue[1..] else s.queue,
    inFlight := if w.WHeld? || (takes && s.fused) then s.inFlight + 1
                else if w.WRan? then s.inFlight - 1 else s.inFlight,
    executed := if w.WRunning? then s.executed + [w.task] else s.executed,
    clients := if w.WBroadcast? then WakeWaiters(s.clients) else s.clients)
  }

  predicate SomeAsleep(ws: seq<Worker>) {
    exists i :: 0 <= i < |ws| && ws[i].WAsleep?
  }

  predicate MoveEnabled(s: State, c: nat, pick: nat) {
    && c < |s.clients|
    && var pc := s.clients[c];
    && !Quiet(pc) && !pc.WaitAsleep? && !pc.Freed?
    && (ClientNeedsMutex(pc) ==> s.mutex == NoOne)
    && (pc.SubmitSignal? && SomeAsleep(s.workers) ==> pick < |s.workers| && s.workers[pick].WAsleep?)
    && (pc.DownJoin? && pc.k < |s.workers| ==> s.workers[pc.k].WExited?)
  }

  /** The pc after one step of submit, wait, shutdown or free. */
  function ClientNext(s: State, pc: Client): Client {
    match pc
    case SubmitTestOff => if s.off then Idle else SubmitEnqueue
    case SubmitEnqueue => SubmitLock
    case SubmitLock => SubmitSignal
    case SubmitSignal => SubmitUnlock
    case SubmitUnlock => Idle
    case WaitLock => WaitTestEmpty
    case WaitTestEmpty => if s.queue == [] then WaitTestFlight(s.next) else WaitGoSleep
    case WaitTestFlight(seen) => if s.inFlight > 0 then WaitGoSleep else WaitUnlock(seen, HeldTasks(s.workers))
    case WaitGoSleep => WaitAsleep
    case WaitAsleep => WaitWoken
    case WaitWoken => WaitTestEmpty
    case WaitUnlock(seen, gap) => Returned(seen, gap)
    case DownOn => DownOff
    case DownOff => DownLock
    case DownLock => DownBroadcast
    case DownBroadcast => DownUnlock
    case DownUnlock => DownJoin(0)
    case DownJoin(k) =>
      if k < |s.workers| then DownJoin(k + 1) else if s.freeing.Some? then FreeDrain else Idle
    case FreeTestOff => if s.off then FreeDrain else DownOn
    case FreeDrain => if s.queue == [] then Freed else FreeDrain
    case _ => pc
  }

  /** What a step of calling thread `c` does to each shared variable. */
  function ClientStep(s: State, c: nat, pick: nat): State
    requires MoveEnabled(s, c, pick)
  {
    var pc := s.clients[c];
    var drains := pc.FreeDrain? && s.queue != [];
    s.(
    clients := s.clients[c := ClientNext(s, pc)],
    mutex := if ClientNeedsMutex(pc) then ClientHolds(c) else if ClientReleases(pc) then NoOne else s.mutex,
    queue := if pc.SubmitEnqueue? then s.queue + [s.next] else if drains then s.queue[1..] else s.queue,
    next := if pc.SubmitEnqueue? then s.next + 1 else s.next,
    discarded := if drains then s.discarded + [s.queue[0]] else s.discarded,
    workers := if pc.SubmitSignal? then WakeOne(s.workers, pick)
               else if pc.DownBroadcast? then WakeWorkers(s.workers) else s.workers,
    on := s.on && !pc.DownOn?,
    off := s.off || pc.DownOff?,
    quit := s.quit || pc.DownBroadcast?)
  }

  function Entry(op: Op): Client {
    match op
    case Submit => SubmitTestOff
    case Wait => WaitLock
    case Shutdown => DownOn
    case Free => FreeTestOff
  }

  /** Nothing else uses the pool during or after a call of free. */
  predicate Enabled(s: State, step: Step) {
    match step
    case Work(i) => WorkerEnabled(s, i)
    case WakeWorker(i) => i < |s.workers| && s.workers[i].WAsleep?
    case Start(c, op) =>
      && c < |s.clients| && Quiet(s.clients[c]) && s.freeing == None
      && (op == Free ==> forall d :: 0 <= d < |s.clients| ==> Quiet(s.clients[d]))
    case Move(c, pick) => MoveEnabled(s, c, pick)
    case WakeClient(c) => c < |s.clients| && s.clients[c].WaitAsleep?
  }

  function Apply(s: State, step: Step): State
    requires Enabled(s, step)
  {
    match step
    case Work(i) => WorkerStep(s, i)
    case WakeWorker(i) => s.(workers := s.workers[i := WWoken])
    case Start(c, op) =>
      s.(clients := s.clients[c := Entry(op)], freeing := if op == Free then Some(c) else s.freeing)
    case Move(c, pick) => ClientStep(s, c, pick)
    case WakeClient(c) => s.(clients := s.clients[c := WaitWoken])
  }

  /** `thread_pool_new`: `n` workers about to enter the loop, and `m` threads that may call in. */
  function Init(n: nat, m: nat, fused: bool): State {
    State(seq(n, _ => WLock), seq(m, _ => Idle), [], NoOne, true, false, 0, 0, [], [], false, None, fused)
  }

  ghost predicate Run(s: State, steps: seq<Step>, s': State)
    decreases |steps|
  {
    if steps == [] then s == s'
    else Enabled(s, steps[0]) && Run(Apply(s, steps[0]), steps[1..], s')
  }

  /** Reached by some interleaving, from a pool of at least one worker. */
  ghost predicate Reachable(s: State) {
    exists n: nat, m: nat, fused: bool, steps: seq<Step> :: n > 0 && Run(Init(n, m, fused), steps, s)
  }
}
