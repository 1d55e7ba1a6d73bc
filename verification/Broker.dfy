/**
 * The delivery protocol of src/message_broker.c as a step system: publishers, pool workers,
 * subscribers and consumers interleave over the channel table, the per-channel proxy lists, the
 * inboxes and their mutexes.  A step is one mutex operation, one table or queue call, one test of
 * an `_active` flag, or one step of a list walk.  The pool is its FIFO queue and its workers; a
 * lock/signal/unlock triple with nothing else inside is one step, enabled when the mutex is free.
 */
module Broker {
  import opened Prelude

  /** A published message; it is also the argument of its publisher task. */
  datatype Msg = Msg(id: nat, name: string, content: string)

  /** `log` is history: the messages in the order in which their tasks acquired the channel mutex. */
  datatype Chan = Chan(name: string, proxies: seq<nat>, log: seq<Msg>, lock: Mutex)

  /** A proxy is private to `subscribe` until it is linked, and is freed at most once. */
  datatype Life = Private | Linked | Freed

  /** The caller's view of a subscription handle. */
  datatype Handle = NotReturned | Active | Inactive | Released

  /**
   * `subscriber_proxy_t` and `subscription_t` of one subscription.  `user` is the thread inside a
   * call on it.  `taken` (messages received so far), `join` (length of the channel log when the proxy
   * was linked), `born` (next message id at that moment) and `frees` are history.
   */
  datatype Sub = Sub(
    name: string, chan: nat, life: Life, active: bool, inbox: seq<Msg>, lock: Mutex, user: Mutex,
    handle: Handle, releasing: bool, taken: seq<Msg>, join: nat, born: nat, frees: nat)

  /** A pool worker inside `_publisher_task`. */
  datatype WorkerPc =
    | WIdle | WLockAll(m: Msg) | WLookup(m: Msg) | WCreate(m: Msg) | WUnlockAll(m: Msg, c: nat) | WLockChan(m: Msg, c: nat)
    | WAt(m: Msg, c: nat, i: nat)        // the walk is at proxy `i`: test `_active`
    | WCopy(m: Msg, c: nat, i: nat)      // message copied: `_subscriber_proxy_enqueue` tests `_active` again
    | WPush(m: Msg, c: nat, i: nat)      // append to the inbox
    | WSignal(m: Msg, c: nat, i: nat)    // signal the consumer
    | WUnlockChan(m: Msg, c: nat)

  /** A thread inside `message_broker_subscribe`. */
  datatype SubPc =
    | SLockAll | SLookup | SCreate | SUnlockAll(c: nat) | SLockChan(c: nat) | SInsert(c: nat) | SUnlockChan(c: nat) | SReturn

  /** A thread inside `subscription_receive` (R) or `subscription_try_receive` (T). */
  datatype RecvPc =
    | RTest | RLock | REmpty | RActive | RGoSleep | RAsleep | RWoken | RActiveAgain | RUnlockFail | RUnlock | RTake
    | TTest | TEmpty | TTake

  /** A thread inside `subscription_unsubscribe` or `subscription_free`. */
  datatype UnsubPc =
    | UTest | UDeact | UWake | ULockAll | ULookup | ULockChan(c: nat) | UAt(c: nat, i: nat) | UFree(c: nat, i: nat)
    | UUnlink(c: nat, i: nat) | UUnlockChan(c: nat) | UUnlockAll | UClear

  datatype Thread =
    | Worker(w: WorkerPc)
    | Idle
    | Publishing(m: Msg)
    | Subscribing(p: nat, s: SubPc)
    | Receiving(p: nat, r: RecvPc)
    | Leaving(p: nat, u: UnsubPc)
    | Done(p: nat, code: int, msg: Option<Msg>)

  /** History: where a message is before its delivery walk starts, and its place in the log after. */
  datatype Place = AtThread(t: nat) | Queued | Logged(c: nat, k: nat)

  /**
   * `serial`: publish calls do not overlap.  `published` (the message behind each id drawn), `place` and
   * `finished` (ids whose task has completed) are history.
   */
  datatype State = State(
    workers: nat, serial: bool, threads: seq<Thread>, all: Mutex, table: map<string, seq<nat>>,
    chans: seq<Chan>, subs: seq<Sub>, queue: seq<Msg>, nextMsg: nat, published: map<nat, Msg>, place: map<nat, Place>,
    finished: set<nat>, down: bool)

  datatype Op =
    | Publish(name: string, content: string)
    | Subscribe(name: string)
    | Receive(p: nat)
    | TryReceive(p: nat)
    | Unsubscribe(p: nat)
    | Release(p: nat)

  datatype Step = Begin(t: nat, op: Op) | Go(t: nat) | Spurious(t: nat) | Teardown

  // ---------------------------------------------------------------- shared variables

  /** `generic_hash_table_get` and `_insert`, by the table's specification: a stack of values per key. */
  function Get(table: map<string, seq<nat>>, name: string): Option<nat> {
    if name in table && table[name] != [] then Some(table[name][0]) else None
  }

  function Put(table: map<string, seq<nat>>, name: string, c: nat): map<string, seq<nat>> {
    table[name := [c] + if name in table then table[name] else []]
  }

  function NewChan(name: string): Chan {
    Chan(name, [], [], Unlocked)
  }

  function Move(m: Mutex, t: nat, locks: bool, unlocks: bool): Mutex {
    if locks then HeldBy(t) else if unlocks then Unlocked else m
  }

  function SetLock(chans: seq<Chan>, c: nat, l: Mutex): seq<Chan>
    requires c < |chans|
  {
    chans[c := chans[c].(lock := l)]
  }

  // ---------------------------------------------------------------- `_publisher_task`

  /** Inside a delivery walk. */
  predicate Walking(w: WorkerPc) {
    w.WAt? || w.WCopy? || w.WPush? || w.WSignal?
  }

  predicate WorkerOnChan(w: WorkerPc) {
    w.WUnlockAll? || w.WLockChan? || Walking(w) || w.WUnlockChan?
  }

  /** The proxy that the walk has reached. */
  predicate AtProxy(s: State, w: WorkerPc) {
    Walking(w) && w.c < |s.chans| && w.i < |s.chans[w.c].proxies| && s.chans[w.c].proxies[w.i] < |s.subs|
  }

  function Reached(s: State, w: WorkerPc): nat
    requires AtProxy(s, w)
  {
    s.chans[w.c].proxies[w.i]
  }

  /** Indices that a step dereferences exist (true of every reachable state), and the mutex it takes is free. */
  predicate WorkerCan(s: State, w: WorkerPc) {
    && (WorkerOnChan(w) ==> w.c < |s.chans|)
    && (w.WCopy? || w.WPush? || w.WSignal? || (w.WAt? && w.i < |s.chans[w.c].proxies|) ==> AtProxy(s, w))
    && (w.WIdle? ==> s.queue != [])
    && (w.WLockAll? ==> s.all.Unlocked?)
    && (w.WLockChan? ==> s.chans[w.c].lock.Unlocked?)
    && (w.WSignal? ==> s.subs[Reached(s, w)].lock.Unlocked?)
  }

  function WorkerNext(s: State, w: WorkerPc): WorkerPc
    requires WorkerCan(s, w)
  {
    match w
    case WIdle => WLockAll(s.queue[0])
    case WLockAll(m) => WLookup(m)
    case WLookup(m) => var r := Get(s.table, m.name); if r.Some? then WUnlockAll(m, r.value) else WCreate(m)
    case WCreate(m) => WUnlockAll(m, |s.chans|)
    case WUnlockAll(m, c) => WLockChan(m, c)
    case WLockChan(m, c) => WAt(m, c, 0)
    case WAt(m, c, i) =>
      if i >= |s.chans[c].proxies| then WUnlockChan(m, c)
      else if s.subs[Reached(s, w)].active then WCopy(m, c, i) else WAt(m, c, i + 1)
    case WCopy(m, c, i) => if s.subs[Reached(s, w)].active then WPush(m, c, i) else WAt(m, c, i + 1)
    case WPush(m, c, i) => WSignal(m, c, i)
    case WSignal(m, c, i) => WAt(m, c, i + 1)
    case WUnlockChan(_, _) => WIdle
  }

  /** `pthread_cond_signal` on the inbox of `p`: only the subscription's own consumer can be waiting there. */
  function Signalled(s: State, p: nat): seq<Thread>
    requires p < |s.subs|
  {
    var u := s.subs[p].user;
    if u.HeldBy? && u.thread < |s.threads| && s.threads[u.thread] == Receiving(p, RAsleep)
    then s.threads[u.thread := Receiving(p, RWoken)] else s.threads
  }

  function WorkerStep(s: State, t: nat, w: WorkerPc): State
    requires t < |s.threads| && WorkerCan(s, w)
  {
    s.(
    threads := (if w.WSignal? then Signalled(s, Reached(s, w)) else s.threads)[t := Worker(WorkerNext(s, w))],
    all := Move(s.all, t, w.WLockAll?, w.WUnlockAll?),
    table := if w.WCreate? then Put(s.table, w.m.name, |s.chans|) else s.table,
    chans := if w.WCreate? then s.chans + [NewChan(w.m.name)]
             else if w.WLockChan? then s.chans[w.c := s.chans[w.c].(lock := HeldBy(t), log := s.chans[w.c].log + [w.m])]
             else if w.WUnlockChan? then SetLock(s.chans, w.c, Unlocked)
             else s.chans,
    subs := if w.WPush? then
              var p := Reached(s, w); s.subs[p := s.subs[p].(inbox := s.subs[p].inbox + [w.m])]
            else s.subs,
    queue := if w.WIdle? then s.queue[1..] else s.queue,
    place := if w.WIdle? then s.place[s.queue[0].id := AtThread(t)]
             else if w.WLockChan? then s.place[w.m.id := Logged(w.c, |s.chans[w.c].log|)]
             else s.place,
    finished := if w.WUnlockChan? then s.finished + {w.m.id} else s.finished)
  }

  // ---------------------------------------------------------------- `message_broker_subscribe`

  predicate SubOnChan(x: SubPc) {
    x.SUnlockAll? || x.SLockChan? || x.SInsert? || x.SUnlockChan?
  }

  predicate SubCan(s: State, p: nat, x: SubPc) {
    && p < |s.subs|
    && (SubOnChan(x) ==> x.c < |s.chans|)
    && (x.SLockAll? ==> s.all.Unlocked?)
    && (x.SLockChan? ==> s.chans[x.c].lock.Unlocked?)
  }

  function SubNext(s: State, p: nat, x: SubPc): Thread
    requires SubCan(s, p, x)
  {
    match x
    case SLockAll => Subscribing(p, SLookup)
    case SLookup =>
      var r := Get(s.table, s.subs[p].name); Subscribing(p, if r.Some? then SUnlockAll(r.value) else SCreate)
    case SCreate => Subscribing(p, SUnlockAll(|s.chans|))
    case SUnlockAll(c) => Subscribing(p, SLockChan(c))
    case SLockChan(c) => Subscribing(p, SInsert(c))
    case SInsert(c) => Subscribing(p, SUnlockChan(c))
    case SUnlockChan(c) => Subscribing(p, SReturn)
    case SReturn => Done(p, 0, None)
  }

  function SubStep(s: State, t: nat, p: nat, x: SubPc): State
    requires t < |s.threads| && SubCan(s, p, x)
  {
    var sub := s.subs[p];
    s.(
    threads := s.threads[t := SubNext(s, p, x)],
    all := Move(s.all, t, x.SLockAll?, x.SUnlockAll?),
    table := if x.SCreate? then Put(s.table, sub.name, |s.chans|) else s.table,
    chans := if x.SCreate? then s.chans + [NewChan(sub.name)]
             else if x.SLockChan? then SetLock(s.chans, x.c, HeldBy(t))
             else if x.SInsert? then s.chans[x.c := s.chans[x.c].(proxies := s.chans[x.c].proxies + [p])]
             else if x.SUnlockChan? then SetLock(s.chans, x.c, Unlocked)
             else s.chans,
    subs := if x.SInsert? then
              s.subs[p := sub.(life := Linked, chan := x.c, join := |s.chans[x.c].log|, born := s.nextMsg)]
            else if x.SReturn? then s.subs[p := sub.(handle := Active, user := Unlocked)]
            else s.subs)
  }

  // ---------------------------------------------------------------- receive and try_receive

  predicate RecvHolds(r: RecvPc) {
    r.REmpty? || r.RActive? || r.RGoSleep? || r.RActiveAgain? || r.RUnlockFail? || r.RUnlock?
  }

  predicate RecvCan(s: State, p: nat, r: RecvPc) {
    && p < |s.subs|
    && !r.RAsleep?
    && (r.RLock? || r.RWoken? ==> s.subs[p].lock.Unlocked?)
  }

  /** `generic_queue_syn_dequeue` returns 0 and a NULL pointer on an empty queue. */
  function Dequeued(inbox: seq<Msg>): Option<Msg> {
    if inbox == [] then None else Some(inbox[0])
  }

  function RecvNext(sub: Sub, p: nat, r: RecvPc): Thread {
    var usable := sub.handle.Active? && sub.active;
    match r
    case RTest => if usable then Receiving(p, RLock) else Done(p, 1, None)
    case RLock => Receiving(p, REmpty)
    case REmpty => Receiving(p, if sub.inbox == [] then RActive else RActiveAgain)
    case RActive => Receiving(p, if sub.active then RGoSleep else RActiveAgain)
    case RGoSleep => Receiving(p, RAsleep)
    case RAsleep => Receiving(p, RWoken)
    case RWoken => Receiving(p, REmpty)
    case RActiveAgain => Receiving(p, if sub.active then RUnlock else RUnlockFail)
    case RUnlockFail => Done(p, 1, None)
    case RUnlock => Receiving(p, RTake)
    case RTake => Done(p, 0, Dequeued(sub.inbox))
    case TTest => if usable then Receiving(p, TEmpty) else Done(p, 1, None)
    case TEmpty => if sub.inbox == [] then Done(p, 1, None) else Receiving(p, TTake)
    case TTake => Done(p, 0, Dequeued(sub.inbox))
  }

  function RecvSub(sub: Sub, t: nat, p: nat, r: RecvPc): Sub {
    var takes := (r.RTake? || r.TTake?) && sub.inbox != [];
    sub.(
    lock := Move(sub.lock, t, r.RLock? || r.RWoken?, r.RGoSleep? || r.RUnlockFail? || r.RUnlock?),
    user := if RecvNext(sub, p, r).Done? then Unlocked else sub.user,
    inbox := if takes then sub.inbox[1..] else sub.inbox,
    taken := if takes then sub.taken + [sub.inbox[0]] else sub.taken)
  }

  function RecvStep(s: State, t: nat, p: nat, r: RecvPc): State
    requires t < |s.threads| && RecvCan(s, p, r)
  {
    s.(
    threads := s.threads[t := RecvNext(s.subs[p], p, r)],
    subs := s.subs[p := RecvSub(s.subs[p], t, p, r)])
  }

  // ---------------------------------------------------------------- unsubscribe and free

  predicate UnsubOnChan(u: UnsubPc) {
    u.ULockChan? || u.UAt? || u.UFree? || u.UUnlink? || u.UUnlockChan?
  }

  predicate UnsubHoldsAll(u: UnsubPc) {
    u.ULookup? || UnsubOnChan(u) || u.UUnlockAll?
  }

  predicate UnsubCan(s: State, p: nat, u: UnsubPc) {
    && p < |s.subs|
    && (UnsubOnChan(u) ==> u.c < |s.chans|)
    && (u.UUnlink? ==> u.i < |s.chans[u.c].proxies|)
    && (u.ULockAll? ==> s.all.Unlocked?)
    && (u.ULockChan? ==> s.chans[u.c].lock.Unlocked?)
    && (u.UWake? || u.UFree? ==> s.subs[p].lock.Unlocked?)
  }

  function UnsubNext(s: State, p: nat, u: UnsubPc): Thread
    requires UnsubCan(s, p, u)
  {
    match u
    case UTest =>
      if s.subs[p].handle.Active? then Leaving(p, UDeact) else Done(p, if s.subs[p].releasing then 0 else 1, None)
    case UDeact => Leaving(p, UWake)
    case UWake => Leaving(p, ULockAll)
    case ULockAll => Leaving(p, ULookup)
    case ULookup =>
      var r := Get(s.table, s.subs[p].name); Leaving(p, if r.Some? then ULockChan(r.value) else UUnlockAll)
    case ULockChan(c) => Leaving(p, UAt(c, 0))
    case UAt(c, i) =>
      Leaving(p, if i >= |s.chans[c].proxies| then UUnlockChan(c)
                 else if s.chans[c].proxies[i] == p then UFree(c, i) else UAt(c, i + 1))
    case UFree(c, i) => Leaving(p, UUnlink(c, i))
    case UUnlink(c, i) => Leaving(p, UUnlockChan(c))
    case UUnlockChan(c) => Leaving(p, UUnlockAll)
    case UUnlockAll => Leaving(p, UClear)
    case UClear => Done(p, 0, None)
  }

  function UnsubSub(sub: Sub, u: UnsubPc): Sub {
    var ends := u.UClear? || (u.UTest? && !sub.handle.Active?);
    sub.(
    active := sub.active && !u.UDeact? && !u.UFree?,
    life := if u.UFree? then Freed else sub.life,
    frees := if u.UFree? then sub.frees + 1 else sub.frees,
    handle := if ends then if sub.releasing then Released else Inactive else sub.handle,
    user := if ends then Unlocked else sub.user)
  }

  function UnsubStep(s: State, t: nat, p: nat, u: UnsubPc): State
    requires t < |s.threads| && UnsubCan(s, p, u)
  {
    s.(
    threads := s.threads[t := UnsubNext(s, p, u)],
    all := Move(s.all, t, u.ULockAll?, u.UUnlockAll?),
    chans := if u.ULockChan? then SetLock(s.chans, u.c, HeldBy(t))
             else if u.UUnlink? then s.chans[u.c := s.chans[u.c].(proxies := Without(s.chans[u.c].proxies, u.i))]
             else if u.UUnlockChan? then SetLock(s.chans, u.c, Unlocked)
             else s.chans,
    subs := s.subs[p := UnsubSub(s.subs[p], u)])
  }

  // ---------------------------------------------------------------- steps

  predicate CanGo(s: State, t: nat) {
    && t < |s.threads| && !s.down
    && match s.threads[t]
       case Worker(w) => WorkerCan(s, w)
       case Publishing(_) => true
       case Subscribing(p, x) => SubCan(s, p, x)
       case Receiving(p, r) => RecvCan(s, p, r)
       case Leaving(p, u) => UnsubCan(s, p, u)
       case _ => false
  }

  function GoStep(s: State, t: nat): State
    requires CanGo(s, t)
  {
    match s.threads[t]
    case Worker(w) => WorkerStep(s, t, w)
    case Publishing(m) =>
      s.(threads := s.threads[t := Idle], queue := s.queue + [m], place := s.place[m.id := Queued])
    case Subscribing(p, x) => SubStep(s, t, p, x)
    case Receiving(p, r) => RecvStep(s, t, p, r)
    case Leaving(p, u) => UnsubStep(s, t, p, u)
    case _ => s
  }

  /** Calls on one handle do not overlap, and a released handle is not used again. */
  predicate Callable(s: State, p: nat) {
    p < |s.subs| && s.subs[p].user.Unlocked? && (s.subs[p].handle.Active? || s.subs[p].handle.Inactive?)
  }

  predicate CanBegin(s: State, t: nat, op: Op) {
    && t < |s.threads| && !s.down
    && (s.threads[t].Idle? || s.threads[t].Done?)
    && match op
       case Publish(_, _) => s.serial ==> forall u :: 0 <= u < |s.threads| ==> !s.threads[u].Publishing?
       case Subscribe(_) => true
       case Receive(p) => Callable(s, p)
       case TryReceive(p) => Callable(s, p)
       case Unsubscribe(p) => Callable(s, p)
       case Release(p) => Callable(s, p)
  }

  function NewSub(name: string, t: nat): Sub {
    Sub(name, 0, Private, true, [], Unlocked, HeldBy(t), NotReturned, false, [], 0, 0, 0)
  }

  function Enter(s: State, t: nat, p: nat, pc: Thread, releasing: bool): State
    requires t < |s.threads| && p < |s.subs|
  {
    s.(threads := s.threads[t := pc], subs := s.subs[p := s.subs[p].(user := HeldBy(t), releasing := releasing)])
  }

  /** `message_broker_publish` draws its id, `message_broker_subscribe` its subscriber number, first of all. */
  function BeginStep(s: State, t: nat, op: Op): State
    requires CanBegin(s, t, op)
  {
    match op
    case Publish(name, content) =>
      var m := Msg(s.nextMsg, name, content);
      s.(threads := s.threads[t := Publishing(m)], nextMsg := s.nextMsg + 1,
      published := s.published[m.id := m], place := s.place[m.id := AtThread(t)])
    case Subscribe(name) =>
      s.(threads := s.threads[t := Subscribing(|s.subs|, SLockAll)], subs := s.subs + [NewSub(name, t)])
    case Receive(p) => Enter(s, t, p, Receiving(p, RTest), false)
    case TryReceive(p) => Enter(s, t, p, Receiving(p, TTest), false)
    case Unsubscribe(p) => Enter(s, t, p, Leaving(p, UTest), false)
    case Release(p) => Enter(s, t, p, Leaving(p, UTest), true)
  }

  function FreeOne(sub: Sub): Sub {
    if sub.life.Linked? then sub.(life := Freed, active := false, frees := sub.frees + 1) else sub
  }

  function FreeLinked(subs: seq<Sub>): (r: seq<Sub>)
    ensures |r| == |subs| && forall p :: 0 <= p < |subs| ==> r[p] == FreeOne(subs[p])
  {
    seq(|subs|, p requires 0 <= p < |subs| => FreeOne(subs[p]))
  }

  function EmptyLists(chans: seq<Chan>): (r: seq<Chan>)
    ensures |r| == |chans| && forall c :: 0 <= c < |chans| ==> r[c] == chans[c].(proxies := [])
  {
    seq(|chans|, c requires 0 <= c < |chans| => chans[c].(proxies := []))
  }

  predicate Quiet(th: Thread) {
    th == Worker(WIdle) || th.Idle? || th.Done?
  }

  /** `Teardown` is `message_broker_free`, called when nothing else is in progress. */
  predicate Enabled(s: State, step: Step) {
    match step
    case Begin(t, op) => CanBegin(s, t, op)
    case Go(t) => CanGo(s, t)
    case Spurious(t) => t < |s.threads| && !s.down && s.threads[t].Receiving? && s.threads[t].r.RAsleep?
    case Teardown => !s.down && forall t :: 0 <= t < |s.threads| ==> Quiet(s.threads[t])
  }

  function Apply(s: State, step: Step): State
    requires Enabled(s, step)
  {
    match step
    case Begin(t, op) => BeginStep(s, t, op)
    case Go(t) => GoStep(s, t)
    case Spurious(t) => s.(threads := s.threads[t := Receiving(s.threads[t].p, RWoken)])
    case Teardown => s.(subs := FreeLinked(s.subs), chans := EmptyLists(s.chans), down := true)
  }

  /** `message_broker_new`: `n` pool workers, `m` calling threads, message ids from 1. */
  function Init(n: nat, m: nat, serial: bool): State {
    State(n, serial, seq(n + m, t => if t < n then Worker(WIdle) else Idle), Unlocked, map[], [], [], [], 1, map[], map[], {}, false)
  }

  ghost predicate Run(s: State, steps: seq<Step>, s': State)
    decreases |steps|
  {
    if steps == [] then s == s'
    else Enabled(s, steps[0]) && Run(Apply(s, steps[0]), steps[1..], s')
  }

  ghost predicate Reachable(s: State) {
    exists n: nat, m: nat, serial: bool, steps: seq<Step> :: Run(Init(n, m, serial), steps, s)
  }
}
