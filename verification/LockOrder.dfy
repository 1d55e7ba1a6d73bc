/**
 * Deadlock freedom.  Each API call is the sequence of mutex operations it performs, read off the source;
 * any number of threads run any calls.  Every call acquires mutexes in one rank order, so no
 * thread waits for ever on a cycle, whatever the channels, buckets and subscribers involved.
 */
module LockOrder {
  import opened Prelude

  datatype Lock =
    | Pool | PoolQueue
    | Channels | Bucket(b: nat) | Channel(c: nat) | Inbox(p: nat) | InboxQueue(p: nat)
    | DetachedList

  datatype Action = Acquire(l: Lock) | Release(l: Lock)

  type Program = seq<Action>

  function Rank(l: Lock): nat {
    match l
    case Pool => 0
    case PoolQueue => 1
    case Channels => 2
    case Bucket(_) => 3
    case Channel(_) => 4
    case Inbox(_) => 5
    case InboxQueue(_) => 6
    case DetachedList => 7
  }

  // ---------------------------------------------------------------- the calls

  /** Lock, do something that takes no other lock, unlock. */
  function Brief(l: Lock): Program {
    [Acquire(l), Release(l)]
  }

  /** Under the channels mutex: look the channel up in its bucket, and insert it if it was missing. */
  function FindChannel(b: nat, missing: bool): Program {
    [Acquire(Channels)] + Brief(Bucket(b)) + (if missing then Brief(Bucket(b)) else []) + [Release(Channels)]
  }

  /** `_subscriber_proxy_enqueue`: the queue's own mutex, then the inbox mutex for the signal. */
  function Deliver(p: nat): Program {
    Brief(InboxQueue(p)) + Brief(Inbox(p))
  }

  /** The walk of `_publisher_task` over the subscribers found active. */
  function DeliverAll(ps: seq<nat>): Program {
    if ps == [] then [] else Deliver(ps[0]) + DeliverAll(ps[1..])
  }

  function PublisherTask(b: nat, missing: bool, c: nat, ps: seq<nat>): Program {
    FindChannel(b, missing) + [Acquire(Channel(c))] + DeliverAll(ps) + [Release(Channel(c))]
  }

  function SubscribeCall(b: nat, missing: bool, c: nat): Program {
    FindChannel(b, missing) + Brief(Channel(c))
  }

  /** A wait loop: test the queue, then `pthread_cond_wait` gives the mutex back and retakes it. */
  function WaitLoop(mutex: Lock, queue: Lock, times: nat): Program {
    if times == 0 then []
    else Brief(queue) + [Release(mutex), Acquire(mutex)] + WaitLoop(mutex, queue, times - 1)
  }

  /** Under the mutex: wait, see what was waited for, and perhaps test the queue once more. */
  function WaitUnder(mutex: Lock, queue: Lock, times: nat, again: bool): Program {
    [Acquire(mutex)] + (WaitLoop(mutex, queue, times) + Brief(queue) + (if again then Brief(queue) else [])) + [Release(mutex)]
  }

  /** Receive; `takes` unless the subscription was given up meanwhile. */
  function ReceiveCall(p: nat, times: nat, takes: bool): Program {
    WaitUnder(Inbox(p), InboxQueue(p), times, false) + (if takes then Brief(InboxQueue(p)) else [])
  }

  function TryReceiveCall(p: nat, takes: bool): Program {
    Brief(InboxQueue(p)) + (if takes then Brief(InboxQueue(p)) else [])
  }

  /** How a turn of a pool worker ends: in its exit, with nothing dequeued, or with a task run and announced. */
  datatype Work = Exits | Nothing | Runs(b: nat, missing: bool, c: nat, ps: seq<nat>)

  /** After the wait: dequeue, run the task with no pool mutex held, announce. */
  function WorkOf(work: Work): Program {
    match work
    case Exits => []
    case Nothing => Brief(PoolQueue)
    case Runs(b, missing, c, ps) => Brief(PoolQueue) + PublisherTask(b, missing, c, ps) + Brief(Pool)
  }

  function WorkerTurn(times: nat, again: bool, work: Work): Program {
    WaitUnder(Pool, PoolQueue, times, again) + WorkOf(work)
  }

  /** `_subscriber_proxy_free`: a broadcast under the inbox mutex, then the queue freed under its own. */
  function FreeProxy(p: nat): Program {
    Brief(Inbox(p)) + Brief(InboxQueue(p))
  }

  function FreeProxies(ps: seq<nat>): Program {
    if ps == [] then [] else FreeProxy(ps[0]) + FreeProxies(ps[1..])
  }

  /** Unsubscribe, with the proxy freed under both outer mutexes. */
  function UnsubscribeCall(b: nat, c: nat, p: nat): Program {
    Brief(Inbox(p))
    + ([Acquire(Channels)]
       + (Brief(Bucket(b)) + ([Acquire(Channel(c))] + FreeProxy(p) + [Release(Channel(c))]))
       + [Release(Channels)])
  }

  /** A channel of a bucket and its proxies; a bucket and its channels. */
  datatype Content = Content(c: nat, ps: seq<nat>)
  datatype BucketContent = BucketContent(b: nat, channels: seq<Content>)

  function FreeChannels(cs: seq<Content>): Program {
    if cs == [] then []
    else [Acquire(Channel(cs[0].c))] + FreeProxies(cs[0].ps) + [Release(Channel(cs[0].c))] + FreeChannels(cs[1..])
  }

  /** `generic_hash_table_free`: every channel freed under the mutex of its bucket. */
  function FreeBuckets(bs: seq<BucketContent>): Program {
    if bs == [] then []
    else [Acquire(Bucket(bs[0].b))] + FreeChannels(bs[0].channels) + [Release(Bucket(bs[0].b))] + FreeBuckets(bs[1..])
  }

  function Drain(times: nat): Program {
    if times == 0 then [] else Brief(PoolQueue) + Drain(times - 1)
  }

  /** `message_broker_free`: shut the pool down unless it is, drain and free its queue, free the table. */
  function TeardownCall(down: bool, drained: nat, bs: seq<BucketContent>): Program {
    (if down then [] else Brief(Pool)) + Drain(drained) + FreeBuckets(bs)
  }

  /** Every call on the broker, its subscriptions and its pool, and the server's use of its detached list. */
  datatype Call =
    | Publish
    | Turn(times: nat, again: bool, work: Work)
    | PoolWait(times: nat)
    | Shutdown
    | Subscribe(b: nat, missing: bool, c: nat)
    | Receive(p: nat, times: nat, takes: bool)
    | TryReceive(p: nat, takes: bool)
    | Pending(p: nat)
    | Unsubscribe(b: nat, c: nat, p: nat)
    | Teardown(down: bool, drained: nat, bs: seq<BucketContent>)
    | Detached

  function Body(call: Call): Program {
    match call
    case Publish => Brief(PoolQueue) + Brief(Pool)
    case Turn(times, again, work) => WorkerTurn(times, again, work)
    case PoolWait(times) => WaitUnder(Pool, PoolQueue, times, false)
    case Shutdown => Brief(Pool)
    case Subscribe(b, missing, c) => SubscribeCall(b, missing, c)
    case Receive(p, times, takes) => ReceiveCall(p, times, takes)
    case TryReceive(p, takes) => TryReceiveCall(p, takes)
    case Pending(p) => Brief(InboxQueue(p))
    case Unsubscribe(b, c, p) => UnsubscribeCall(b, c, p)
    case Teardown(down, drained, bs) => TeardownCall(down, drained, bs)
    case Detached => Brief(DetachedList)
  }

  // ---------------------------------------------------------------- running

  /** A thread: what is left of its call, and the mutexes it holds, innermost last. */
  datatype Thread = Thread(rest: Program, held: seq<Lock>)

  type State = seq<Thread>

  ghost predicate Free(s: State, l: Lock) {
    forall t :: 0 <= t < |s| ==> l !in s[t].held
  }

  ghost predicate CanStep(s: State, t: nat) {
    && t < |s| && s[t].rest != []
    && (s[t].rest[0].Acquire? ==> Free(s, s[t].rest[0].l))
  }

  function Drop(held: seq<Lock>, l: Lock): seq<Lock> {
    if held != [] && held[|held| - 1] == l then held[..|held| - 1] else held
  }

  function After(th: Thread): Thread
    requires th.rest != []
  {
    var a := th.rest[0];
    Thread(th.rest[1..], if a.Acquire? then th.held + [a.l] else Drop(th.held, a.l))
  }

  datatype Step = Begin(t: nat, call: Call) | Do(t: nat)

  ghost predicate Enabled(s: State, step: Step) {
    match step
    case Begin(t, _) => t < |s| && s[t].rest == []
    case Do(t) => CanStep(s, t)
  }

  ghost function Apply(s: State, step: Step): State
    requires Enabled(s, step)
  {
    match step
    case Begin(t, call) => s[t := Thread(Body(call), s[t].held)]
    case Do(t) => s[t := After(s[t])]
  }

  ghost predicate Run(s: State, steps: seq<Step>, s': State)
    decreases |steps|
  {
    if steps == [] then s == s'
    else Enabled(s, steps[0]) && Run(Apply(s, steps[0]), steps[1..], s')
  }

  function Init(n: nat): State {
    seq(n, _ => Thread([], []))
  }

  // ---------------------------------------------------------------- the discipline

  predicate RanksBelow(held: seq<Lock>, l: Lock) {
    forall k :: 0 <= k < |held| ==> Rank(held[k]) < Rank(l)
  }

  /** From the held mutexes, the program acquires upwards, releases the innermost, and ends holding `out`. */
  predicate Disciplined(held: seq<Lock>, prog: Program, out: seq<Lock>)
    decreases |prog|
  {
    if prog == [] then held == out
    else match prog[0]
      case Acquire(l) => RanksBelow(held, l) && Disciplined(held + [l], prog[1..], out)
      case Release(l) => held != [] && held[|held| - 1] == l && Disciplined(held[..|held| - 1], prog[1..], out)
  }

  lemma {:induction false} Sequence(held: seq<Lock>, a: Program, mid: seq<Lock>, b: Program, out: seq<Lock>)
    requires Disciplined(held, a, mid) && Disciplined(mid, b, out)
    ensures Disciplined(held, a + b, out)
    decreases |a|
  {
    if a == [] {
      assert a + b == b;
    } else {
      assert (a + b)[1..] == a[1..] + b;
      match a[0]
      case Acquire(l) => Sequence(held + [l], a[1..], mid, b, out);
      case Release(_) => Sequence(held[..|held| - 1], a[1..], mid, b, out);
    }
  }

  lemma AcquireOk(held: seq<Lock>, l: Lock)
    requires RanksBelow(held, l)
    ensures Disciplined(held, [Acquire(l)], held + [l])
  {
    assert [Acquire(l)][1..] == [];
  }

  lemma ReleaseOk(held: seq<Lock>, l: Lock)
    ensures Disciplined(held + [l], [Release(l)], held)
  {
    assert [Release(l)][1..] == [];
    assert (held + [l])[..|held|] == held;
  }

  lemma BriefOk(held: seq<Lock>, l: Lock)
    requires RanksBelow(held, l)
    ensures Disciplined(held, Brief(l), held)
  {
    AcquireOk(held, l);
    ReleaseOk(held, l);
    Sequence(held, [Acquire(l)], held + [l], [Release(l)], held);
    assert [Acquire(l)] + [Release(l)] == Brief(l);
  }

  lemma FindChannelOk(b: nat, missing: bool)
    ensures Disciplined([], FindChannel(b, missing), [])
  {
    var inside := Brief(Bucket(b)) + (if missing then Brief(Bucket(b)) else []);
    BriefOk([Channels], Bucket(b));
    if missing {
      Sequence([Channels], Brief(Bucket(b)), [Channels], Brief(Bucket(b)), [Channels]);
    } else {
      assert inside == Brief(Bucket(b));
    }
    Within(Channels, inside);
    assert [Acquire(Channels)] + inside + [Release(Channels)] == FindChannel(b, missing);
  }

  /** A disciplined stretch under one more mutex, taken and given back. */
  lemma WithinOk(held: seq<Lock>, l: Lock, inside: Program)
    requires RanksBelow(held, l) && Disciplined(held + [l], inside, held + [l])
    ensures Disciplined(held, [Acquire(l)] + inside + [Release(l)], held)
  {
    AcquireOk(held, l);
    ReleaseOk(held, l);
    Sequence(held, [Acquire(l)], held + [l], inside, held + [l]);
    Sequence(held, [Acquire(l)] + inside, held + [l], [Release(l)], held);
  }

  lemma Within(l: Lock, inside: Program)
    requires Disciplined([l], inside, [l])
    ensures Disciplined([], [Acquire(l)] + inside + [Release(l)], [])
  {
    assert [] + [l] == [l];
    WithinOk([], l, inside);
  }

  lemma {:induction false} DeliverAllOk(c: nat, ps: seq<nat>)
    ensures Disciplined([Channel(c)], DeliverAll(ps), [Channel(c)])
  {
    if ps != [] {
      var h := [Channel(c)];
      BriefOk(h, InboxQueue(ps[0]));
      BriefOk(h, Inbox(ps[0]));
      Sequence(h, Brief(InboxQueue(ps[0])), h, Brief(Inbox(ps[0])), h);
      DeliverAllOk(c, ps[1..]);
      Sequence(h, Deliver(ps[0]), h, DeliverAll(ps[1..]), h);
    }
  }

  lemma {:induction false} WaitLoopOk(mutex: Lock, queue: Lock, times: nat)
    requires Rank(mutex) < Rank(queue)
    ensures Disciplined([mutex], WaitLoop(mutex, queue, times), [mutex])
  {
    if times > 0 {
      var h := [mutex];
      BriefOk(h, queue);
      RetakeOk(mutex);
      Sequence(h, Brief(queue), h, [Release(mutex), Acquire(mutex)], h);
      WaitLoopOk(mutex, queue, times - 1);
      Sequence(h, Brief(queue) + [Release(mutex), Acquire(mutex)], h, WaitLoop(mutex, queue, times - 1), h);
    }
  }

  lemma RetakeOk(mutex: Lock)
    ensures Disciplined([mutex], [Release(mutex), Acquire(mutex)], [mutex])
  {
    ReleaseOk([], mutex);
    AcquireOk([], mutex);
    assert [] + [mutex] == [mutex];
    Sequence([mutex], [Release(mutex)], [], [Acquire(mutex)], [mutex]);
    assert [Release(mutex)] + [Acquire(mutex)] == [Release(mutex), Acquire(mutex)];
  }

  lemma WaitUnderOk(mutex: Lock, queue: Lock, times: nat, again: bool)
    requires Rank(mutex) < Rank(queue)
    ensures Disciplined([], WaitUnder(mutex, queue, times, again), [])
  {
    var h := [mutex];
    WaitLoopOk(mutex, queue, times);
    BriefOk(h, queue);
    Sequence(h, WaitLoop(mutex, queue, times), h, Brief(queue), h);
    var last := if again then Brief(queue) else [];
    Sequence(h, WaitLoop(mutex, queue, times) + Brief(queue), h, last, h);
    Within(mutex, WaitLoop(mutex, queue, times) + Brief(queue) + last);
  }

  lemma PublisherTaskOk(b: nat, missing: bool, c: nat, ps: seq<nat>)
    ensures Disciplined([], PublisherTask(b, missing, c, ps), [])
  {
    FindChannelOk(b, missing);
    DeliverAllOk(c, ps);
    Within(Channel(c), DeliverAll(ps));
    var locked := [Acquire(Channel(c))] + DeliverAll(ps) + [Release(Channel(c))];
    Sequence([], FindChannel(b, missing), [], locked, []);
    assert FindChannel(b, missing) + locked == PublisherTask(b, missing, c, ps);
  }

  lemma WorkOk(work: Work)
    ensures Disciplined([], WorkOf(work), [])
  {
    BriefOk([], PoolQueue);
    if work.Runs? {
      var task := PublisherTask(work.b, work.missing, work.c, work.ps);
      PublisherTaskOk(work.b, work.missing, work.c, work.ps);
      Sequence([], Brief(PoolQueue), [], task, []);
      BriefOk([], Pool);
      Sequence([], Brief(PoolQueue) + task, [], Brief(Pool), []);
    }
  }

  lemma FreeProxyOk(held: seq<Lock>, p: nat)
    requires RanksBelow(held, Inbox(p))
    ensures Disciplined(held, FreeProxy(p), held)
  {
    BriefOk(held, Inbox(p));
    BriefOk(held, InboxQueue(p));
    Sequence(held, Brief(Inbox(p)), held, Brief(InboxQueue(p)), held);
  }

  lemma {:induction false} FreeProxiesOk(held: seq<Lock>, ps: seq<nat>)
    requires forall k :: 0 <= k < |held| ==> Rank(held[k]) < 5
    ensures Disciplined(held, FreeProxies(ps), held)
  {
    if ps != [] {
      FreeProxyOk(held, ps[0]);
      FreeProxiesOk(held, ps[1..]);
      Sequence(held, FreeProxy(ps[0]), held, FreeProxies(ps[1..]), held);
    }
  }

  lemma {:induction false} FreeChannelsOk(b: nat, cs: seq<Content>)
    ensures Disciplined([Bucket(b)], FreeChannels(cs), [Bucket(b)])
  {
    if cs != [] {
      var h := [Bucket(b)];
      var l := Channel(cs[0].c);
      FreeProxiesOk(h + [l], cs[0].ps);
      WithinOk(h, l, FreeProxies(cs[0].ps));
      FreeChannelsOk(b, cs[1..]);
      Sequence(h, [Acquire(l)] + FreeProxies(cs[0].ps) + [Release(l)], h, FreeChannels(cs[1..]), h);
    }
  }

  lemma {:induction false} FreeBucketsOk(bs: seq<BucketContent>)
    ensures Disciplined([], FreeBuckets(bs), [])
  {
    if bs != [] {
      var l := Bucket(bs[0].b);
      FreeChannelsOk(bs[0].b, bs[0].channels);
      Within(l, FreeChannels(bs[0].channels));
      FreeBucketsOk(bs[1..]);
      Sequence([], [Acquire(l)] + FreeChannels(bs[0].channels) + [Release(l)], [], FreeBuckets(bs[1..]), []);
    }
  }

  lemma {:induction false} DrainOk(held: seq<Lock>, times: nat)
    requires RanksBelow(held, PoolQueue)
    ensures Disciplined(held, Drain(times), held)
  {
    if times > 0 {
      BriefOk(held, PoolQueue);
      DrainOk(held, times - 1);
      Sequence(held, Brief(PoolQueue), held, Drain(times - 1), held);
    }
  }

  lemma TeardownOk(down: bool, drained: nat, bs: seq<BucketContent>)
    ensures Disciplined([], TeardownCall(down, drained, bs), [])
  {
    var first := if down then [] else Brief(Pool);
    BriefOk([], Pool);
    DrainOk([], drained);
    Sequence([], first, [], Drain(drained), []);
    FreeBucketsOk(bs);
    Sequence([], first + Drain(drained), [], FreeBuckets(bs), []);
  }

  lemma UnsubscribeOk(b: nat, c: nat, p: nat)
    ensures Disciplined([], UnsubscribeCall(b, c, p), [])
  {
    var h := [Channels];
    BriefOk([], Inbox(p));
    BriefOk(h, Bucket(b));
    FreeProxyOk(h + [Channel(c)], p);
    WithinOk(h, Channel(c), FreeProxy(p));
    var inner := [Acquire(Channel(c))] + FreeProxy(p) + [Release(Channel(c))];
    Sequence(h, Brief(Bucket(b)), h, inner, h);
    Within(Channels, Brief(Bucket(b)) + inner);
    Sequence([], Brief(Inbox(p)), [], [Acquire(Channels)] + (Brief(Bucket(b)) + inner) + [Release(Channels)], []);
  }

  /** Every call acquires in rank order, releases what it acquired, and ends holding nothing. */
  lemma CallsDisciplined(call: Call)
    ensures Disciplined([], Body(call), [])
  {
    match call
    case Publish =>
      BriefOk([], PoolQueue);
      BriefOk([], Pool);
      Sequence([], Brief(PoolQueue), [], Brief(Pool), []);
    case Turn(times, again, work) =>
      WaitUnderOk(Pool, PoolQueue, times, again);
      WorkOk(work);
      Sequence([], WaitUnder(Pool, PoolQueue, times, again), [], WorkOf(work), []);
    case PoolWait(times) => WaitUnderOk(Pool, PoolQueue, times, false);
    case Shutdown => BriefOk([], Pool);
    case Subscribe(b, missing, c) =>
      FindChannelOk(b, missing);
      BriefOk([], Channel(c));
      Sequence([], FindChannel(b, missing), [], Brief(Channel(c)), []);
    case Receive(p, times, takes) =>
      WaitUnderOk(Inbox(p), InboxQueue(p), times, false);
      OptionalOk(takes, InboxQueue(p));
      Sequence([], WaitUnder(Inbox(p), InboxQueue(p), times, false), [], if takes then Brief(InboxQueue(p)) else [], []);
    case TryReceive(p, takes) =>
      BriefOk([], InboxQueue(p));
      OptionalOk(takes, InboxQueue(p));
      Sequence([], Brief(InboxQueue(p)), [], if takes then Brief(InboxQueue(p)) else [], []);
    case Pending(p) => BriefOk([], InboxQueue(p));
    case Unsubscribe(b, c, p) => UnsubscribeOk(b, c, p);
    case Teardown(down, drained, bs) => TeardownOk(down, drained, bs);
    case Detached => BriefOk([], DetachedList);
  }

  lemma OptionalOk(taken: bool, l: Lock)
    ensures Disciplined([], if taken then Brief(l) else [], [])
  {
    BriefOk([], l);
  }

  // ---------------------------------------------------------------- no deadlock

  predicate ThreadOk(th: Thread) {
    Disciplined(th.held, th.rest, [])
  }

  ghost predicate Inv(s: State) {
    forall t :: 0 <= t < |s| ==> ThreadOk(s[t])
  }

  ghost predicate Exclusive(s: State) {
    && (forall t, u, l :: 0 <= t < |s| && 0 <= u < |s| && l in s[t].held && l in s[u].held ==> t == u)
  }

  lemma StepOk(s: State, step: Step)
    requires Inv(s) && Exclusive(s) && Enabled(s, step)
    ensures Inv(Apply(s, step)) && Exclusive(Apply(s, step))
  {
    match step
    case Begin(t, call) =>
      assert ThreadOk(s[t]);
      CallsDisciplined(call);
    case Do(t) =>
      assert ThreadOk(s[t]);
      assert forall l :: l in After(s[t]).held ==> l in s[t].held || s[t].rest[0] == Acquire(l);
  }

  lemma {:induction false} RunOk(s: State, steps: seq<Step>, s': State)
    requires Inv(s) && Exclusive(s) && Run(s, steps, s')
    ensures Inv(s') && Exclusive(s')
    decreases |steps|
  {
    if steps != [] {
      StepOk(s, steps[0]);
      RunOk(Apply(s, steps[0]), steps[1..], s');
    }
  }

  /** Thread `t` waits for a mutex that thread `u` holds. */
  predicate WaitsFor(s: State, t: nat, u: nat) {
    t < |s| && u < |s| && s[t].rest != [] && s[t].rest[0].Acquire? && s[t].rest[0].l in s[u].held
  }

  /** A thread that waits for a waiting thread waits for a mutex of lower rank. */
  lemma WaitingRanksRise(s: State, t: nat, u: nat)
    requires Inv(s) && WaitsFor(s, t, u) && s[u].rest != [] && s[u].rest[0].Acquire?
    ensures Rank(s[t].rest[0].l) < Rank(s[u].rest[0].l)
  {
    assert ThreadOk(s[u]);
  }

  /** The waits-for relation has no cycle, of any length. */
  lemma NoWaitCycle(n: nat, steps: seq<Step>, s: State, chain: seq<nat>)
    requires Run(Init(n), steps, s)
    requires |chain| > 0 && forall k :: 0 <= k < |chain| - 1 ==> WaitsFor(s, chain[k], chain[k + 1])
    ensures !WaitsFor(s, chain[|chain| - 1], chain[0])
  {
    RunOk(Init(n), steps, s);
    forall t: nat, u: nat | WaitsFor(s, t, u) && s[u].rest != [] && s[u].rest[0].Acquire?
      ensures Rank(s[t].rest[0].l) < Rank(s[u].rest[0].l)
    {
      WaitingRanksRise(s, t, u);
    }
    if WaitsFor(s, chain[|chain| - 1], chain[0]) {
      forall i | 0 <= i < |chain|
        ensures chain[i] < |s| && s[chain[i]].rest != [] && s[chain[i]].rest[0].Acquire?
      {
        if i < |chain| - 1 {
          assert WaitsFor(s, chain[i], chain[i + 1]);
        }
      }
      ChainRises(s, chain, |chain| - 1);
    }
  }

  lemma {:induction false} ChainRises(s: State, chain: seq<nat>, k: nat)
    requires Inv(s) && k < |chain|
    requires forall i :: 0 <= i < |chain| - 1 ==> WaitsFor(s, chain[i], chain[i + 1])
    requires forall i :: 0 <= i < |chain| ==> chain[i] < |s| && s[chain[i]].rest != [] && s[chain[i]].rest[0].Acquire?
    ensures Rank(s[chain[0]].rest[0].l) + k <= Rank(s[chain[k]].rest[0].l)
  {
    if k > 0 {
      ChainRises(s, chain, k - 1);
      assert WaitsFor(s, chain[k - 1], chain[k]);
      WaitingRanksRise(s, chain[k - 1], chain[k]);
    }
  }

  /** Deadlock freedom: while some call is unfinished, some thread can take its next mutex step. */
  lemma SomeoneCanStep(n: nat, steps: seq<Step>, s: State, t: nat) returns (u: nat)
    requires Run(Init(n), steps, s) && t < |s| && s[t].rest != []
    ensures CanStep(s, u)
  {
    RunOk(Init(n), steps, s);
    u := Climb(s, t);
  }

  /** Follow the waits upwards in rank; the top of the chain can step. */
  lemma {:induction false} Climb(s: State, t: nat) returns (u: nat)
    requires Inv(s) && t < |s| && s[t].rest != []
    ensures CanStep(s, u)
    decreases if s[t].rest[0].Acquire? then 7 - Rank(s[t].rest[0].l) else 0
  {
    if CanStep(s, t) {
      u := t;
    } else {
      var h :| 0 <= h < |s| && s[t].rest[0].l in s[h].held;
      assert ThreadOk(s[h]);
      assert s[h].rest != [];
      if s[h].rest[0].Acquire? {
        WaitingRanksRise(s, t, h);
        u := Climb(s, h);
      } else {
        u := h;
      }
    }
  }
}
