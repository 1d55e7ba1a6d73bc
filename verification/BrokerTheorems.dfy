/** The broker's guarantees, over every reachable state and every run. */
module BrokerTheorems {
  import opened Prelude
  import opened Broker
  import opened BrokerSteps
  import opened BrokerStructure
  import opened BrokerLists
  import opened BrokerOrder
  import opened BrokerIds
  import opened BrokerReceive
  import opened BrokerSerial

  /** Teardown leaves no proxy unfreed. */
  ghost predicate TornDown(s: State) {
    s.down ==> forall p :: 0 <= p < |s.subs| ==> s.subs[p].life.Freed?
  }

  ghost predicate Inv(s: State) {
    Structure(s) && Order(s) && Ids(s) && Consumers(s) && Serial(s) && TornDown(s)
  }

  lemma TornDownKept(s: State, step: Step)
    requires Structure(s) && TornDown(s) && Enabled(s, step)
    ensures TornDown(Apply(s, step))
  {
    match step
    case Go(t) => GoEffect(s, t);
    case Teardown =>
      forall p | 0 <= p < |s.subs| ensures !s.subs[p].life.Private? {
        assert HandleOk(s, p);
        if s.subs[p].user.HeldBy? && s.subs[p].user.thread < |s.threads| {
          assert Quiet(s.threads[s.subs[p].user.thread]);
        }
      }
    case _ =>
  }

  lemma Inductive(s: State, step: Step)
    requires Inv(s) && Enabled(s, step)
    ensures Inv(Apply(s, step))
  {
    StructureKept(s, step);
    OrderKept(s, step);
    IdsKept(s, step);
    ConsumersKept(s, step);
    SerialKept(s, step);
    TornDownKept(s, step);
  }

  lemma Initially(n: nat, m: nat, serial: bool)
    ensures Inv(Init(n, m, serial))
  {
    StructureInitially(n, m, serial);
  }

  lemma {:induction false} RunKeepsInv(s: State, steps: seq<Step>, s': State)
    requires Inv(s) && Run(s, steps, s')
    ensures Inv(s')
    decreases |steps|
  {
    if steps != [] {
      Inductive(s, steps[0]);
      RunKeepsInv(Apply(s, steps[0]), steps[1..], s');
    }
  }

  lemma ReachableInv(s: State)
    requires Reachable(s)
    ensures Inv(s)
  {
    var n: nat, m: nat, serial: bool, steps: seq<Step> :| Run(Init(n, m, serial), steps, s);
    Initially(n, m, serial);
    RunKeepsInv(Init(n, m, serial), steps, s);
  }

  // ---------------------------------------------------------------- total order per channel

  /**
   * A subscriber's messages are the contiguous segment of its channel's log that starts where it joined;
   * while it is active they are the whole rest of the log, minus the one message of a walk that has
   * not reached it yet.
   */
  lemma HistoryIsLogSegment(s: State, p: nat)
    requires Reachable(s) && p < |s.subs| && !s.subs[p].life.Private?
    ensures s.subs[p].chan < |s.chans| && s.chans[s.subs[p].chan].name == s.subs[p].name
    ensures IsSegment(History(s.subs[p]), s.chans[s.subs[p].chan].log, s.subs[p].join)
    ensures s.subs[p].life.Linked? && s.subs[p].active ==>
              exists k :: 0 <= k < |s.chans[s.subs[p].chan].proxies| && s.chans[s.subs[p].chan].proxies[k] == p
                          && s.subs[p].join + |History(s.subs[p])| + Missing(s, s.subs[p].chan, k)
                             == |s.chans[s.subs[p].chan].log|
  {
    ReachableInv(s);
    assert SegmentOk(s, p) && BornOk(s, p);
    if s.subs[p].life.Linked? && s.subs[p].active {
      assert Listed(s, p);
      var c := s.subs[p].chan;
      var k :| 0 <= k < |s.chans[c].proxies| && s.chans[c].proxies[k] == p;
      assert CaughtUpAt(s, c, k);
    }
  }

  /** Log entries are pairwise distinct messages, across all channels. */
  lemma LogIdsUnique(s: State, c: nat, j: nat, d: nat, k: nat)
    requires Ids(s) && c < |s.chans| && d < |s.chans| && j < |s.chans[c].log| && k < |s.chans[d].log|
    ensures s.chans[c].log[j].id == s.chans[d].log[k].id ==> c == d && j == k
  {
  }

  lemma SegmentAt(h: seq<Msg>, log: seq<Msg>, from: nat, i: nat)
    requires IsSegment(h, log, from) && i < |h|
    ensures from + i < |log| && h[i] == log[from + i]
  {
  }

  lemma SegmentsAgree(h: seq<Msg>, g: seq<Msg>, log: seq<Msg>, from: nat, start: nat, a: nat, b: nat)
    requires IsSegment(h, log, from) && IsSegment(g, log, start) && from + a == start + b
    ensures forall i, j :: 0 <= i < |h| && 0 <= j < |g| && i - a == j - b ==> h[i] == g[j]
  {
  }

  /** Two subscribers of a channel see their common messages in the same order, with no gap and no repeat. */
  lemma SubscribersAgree(s: State, p: nat, q: nat, a: nat, b: nat)
    requires Reachable(s) && p < |s.subs| && q < |s.subs| && s.subs[p].name == s.subs[q].name
    requires !s.subs[p].life.Private? && !s.subs[q].life.Private?
    requires a < |History(s.subs[p])| && b < |History(s.subs[q])|
    requires History(s.subs[p])[a].id == History(s.subs[q])[b].id
    ensures p == q ==> a == b
    ensures forall i, j :: 0 <= i < |History(s.subs[p])| && 0 <= j < |History(s.subs[q])| && i - a == j - b ==>
              History(s.subs[p])[i] == History(s.subs[q])[j]
  {
    ReachableInv(s);
    HistoryIsLogSegment(s, p);
    HistoryIsLogSegment(s, q);
    var c := s.subs[p].chan;
    assert s.table[s.chans[c].name] == [c] && s.table[s.chans[s.subs[q].chan].name] == [s.subs[q].chan];
    SegmentAt(History(s.subs[p]), s.chans[c].log, s.subs[p].join, a);
    SegmentAt(History(s.subs[q]), s.chans[c].log, s.subs[q].join, b);
    LogIdsUnique(s, c, s.subs[p].join + a, c, s.subs[q].join + b);
    SegmentsAgree(History(s.subs[p]), History(s.subs[q]), s.chans[c].log, s.subs[p].join, s.subs[q].join, a, b);
  }

  // ---------------------------------------------------------------- exactly once

  /** What linking a proxy fixes stays fixed. */
  predicate SameBirth(sub: Sub, sub': Sub) {
    sub'.name == sub.name && sub'.chan == sub.chan && sub'.join == sub.join && sub'.born == sub.born
    && !sub'.life.Private?
  }

  lemma GoKeepsBirth(s: State, s': State, t: nat, p: nat)
    requires Calls(s) && Effect(s, s', t) && p < |s.subs| && !s.subs[p].life.Private?
    ensures SameBirth(s.subs[p], s'.subs[p])
  {
    assert CallState(s, s.threads[t]);
  }

  lemma BeginKeepsBirth(s: State, t: nat, op: Op, p: nat)
    requires CanBegin(s, t, op) && p < |s.subs| && !s.subs[p].life.Private?
    ensures p < |BeginStep(s, t, op).subs| && SameBirth(s.subs[p], BeginStep(s, t, op).subs[p])
  {
  }

  lemma LinkedForGood(s: State, step: Step, p: nat)
    requires Structure(s) && Enabled(s, step) && p < |s.subs| && !s.subs[p].life.Private?
    ensures p < |Apply(s, step).subs| && SameBirth(s.subs[p], Apply(s, step).subs[p])
  {
    match step
    case Go(t) =>
      GoEffect(s, t);
      GoKeepsBirth(s, GoStep(s, t), t, p);
    case Begin(t, op) => BeginKeepsBirth(s, t, op, p);
    case Spurious(_) =>
    case Teardown => assert Apply(s, step).subs[p] == FreeOne(s.subs[p]);
  }

  lemma {:induction false} RunKeepsLinked(s: State, steps: seq<Step>, s': State, p: nat)
    requires Inv(s) && Run(s, steps, s') && p < |s.subs| && !s.subs[p].life.Private?
    ensures p < |s'.subs| && !s'.subs[p].life.Private?
    ensures s'.subs[p].name == s.subs[p].name && s'.subs[p].born == s.subs[p].born
    decreases |steps|
  {
    if steps != [] {
      LinkedForGood(s, steps[0], p);
      Inductive(s, steps[0]);
      RunKeepsLinked(Apply(s, steps[0]), steps[1..], s', p);
    }
  }

  /** How often id `id` occurs in a history. */
  function Count(h: seq<Msg>, id: nat): nat {
    if h == [] then 0 else (if h[|h| - 1].id == id then 1 else 0) + Count(h[..|h| - 1], id)
  }

  lemma {:induction false} CountOnce(h: seq<Msg>, id: nat, i: nat)
    requires i < |h| && h[i].id == id && forall j :: 0 <= j < |h| && j != i ==> h[j].id != id
    ensures Count(h, id) == 1
  {
    if i == |h| - 1 {
      CountNone(h[..|h| - 1], id);
    } else {
      CountOnce(h[..|h| - 1], id, i);
    }
  }

  lemma {:induction false} CountNone(h: seq<Msg>, id: nat)
    requires forall j :: 0 <= j < |h| ==> h[j].id != id
    ensures Count(h, id) == 0
  {
    if h != [] {
      CountNone(h[..|h| - 1], id);
    }
  }

  /**
   * End to end: a publish that draws its id after a subscribe to the same channel has returned, and whose
   * task completes before that subscription is given up, puts exactly one copy of exactly that
   * message into the subscriber's history.
   */
  lemma ExactlyOnce(s1: State, steps: seq<Step>, s2: State, p: nat, m: Msg)
    requires Reachable(s1) && Run(s1, steps, s2)
    requires p < |s1.subs| && s1.subs[p].handle.Active?
    requires m.id >= s1.nextMsg && m.id in s2.published && s2.published[m.id] == m && m.name == s1.subs[p].name
    requires m.id in s2.finished
    requires p < |s2.subs| && s2.subs[p].handle.Active? && s2.subs[p].active
    ensures m in History(s2.subs[p]) && Count(History(s2.subs[p]), m.id) == 1
  {
    ReachableInv(s1);
    RunKeepsInv(s1, steps, s2);
    assert HandleOk(s1, p) && HandleOk(s2, p);
    if s1.subs[p].life.Private? {
      assert false;
    }
    RunKeepsLinked(s1, steps, s2, p);
    assert BornOk(s1, p) && s2.subs[p].born <= m.id;
    CopyThere(s2, p, m);
  }

  /** A completed task, not older than the subscription, has left one copy with every active subscriber. */
  lemma DeliveredOnce(s: State, p: nat, m: Msg)
    requires Reachable(s) && p < |s.subs| && s.subs[p].life.Linked? && s.subs[p].active && m.name == s.subs[p].name
    requires m.id in s.finished && m.id in s.published && s.published[m.id] == m && s.subs[p].born <= m.id
    ensures m in History(s.subs[p]) && Count(History(s.subs[p]), m.id) == 1
  {
    ReachableInv(s);
    CopyThere(s, p, m);
  }

  /** The message is where the log put it, and nowhere else. */
  lemma CopyThere(s: State, p: nat, m: Msg)
    requires Inv(s) && p < |s.subs| && s.subs[p].life.Linked? && s.subs[p].active && m.name == s.subs[p].name
    requires m.id in s.finished && m.id in s.published && s.published[m.id] == m && s.subs[p].born <= m.id
    ensures m in History(s.subs[p]) && Count(History(s.subs[p]), m.id) == 1
  {
    var h := History(s.subs[p]);
    var c := s.subs[p].chan;
    assert PlaceOk(s, m.id) && BornOk(s, p) && SegmentOk(s, p) && Listed(s, p);
    var d, k := s.place[m.id].c, s.place[m.id].k;
    assert s.chans[d].log[k] == m;
    assert s.table[s.chans[c].name] == [c] && s.table[s.chans[d].name] == [d];
    assert s.subs[p].join <= k;
    ReachedByWalk(s, p, k);
    assert h[k - s.subs[p].join] == m;
    forall j | 0 <= j < |h| && j != k - s.subs[p].join ensures h[j].id != m.id {
      LogIdsUnique(s, c, s.subs[p].join + j, c, k);
    }
    CountOnce(h, m.id, k - s.subs[p].join);
  }

  /** A walk that has ended has reached every active subscriber. */
  lemma ReachedByWalk(s: State, p: nat, k: nat)
    requires Inv(s) && p < |s.subs| && s.subs[p].life.Linked? && s.subs[p].active
    requires s.subs[p].chan < |s.chans| && k < |s.chans[s.subs[p].chan].log|
    requires s.chans[s.subs[p].chan].log[k].id in s.finished
    ensures k < s.subs[p].join + |History(s.subs[p])|
  {
    var c := s.subs[p].chan;
    assert Listed(s, p);
    var e :| 0 <= e < |s.chans[c].proxies| && s.chans[c].proxies[e] == p;
    assert CaughtUpAt(s, c, e);
    if Missing(s, c, e) == 1 {
      var t := s.chans[c].lock.thread;
      assert HeldChan(s.threads[t]) == Some(c);
      assert WalkOk(s, s.threads[t]);
      assert Delivering(s.threads[t]).value.id !in s.finished;
    }
  }

  /** No message is lost or duplicated on its way: every drawn id is at one thread, in the queue, or in one log. */
  lemma MessageInOnePlace(s: State, id: nat)
    requires Reachable(s) && 1 <= id < s.nextMsg
    ensures id in s.place && PlaceOk(s, id)
    ensures forall t :: 0 <= t < |s.threads| && Carried(s.threads[t]).Some? && Carried(s.threads[t]).value.id == id
              ==> s.place[id] == AtThread(t)
    ensures forall q :: 0 <= q < |s.queue| && s.queue[q].id == id ==> s.place[id] == Queued
    ensures forall c, k :: 0 <= c < |s.chans| && 0 <= k < |s.chans[c].log| && s.chans[c].log[k].id == id
              ==> s.place[id] == Logged(c, k)
  {
    ReachableInv(s);
    forall t | 0 <= t < |s.threads| && Carried(s.threads[t]).Some? && Carried(s.threads[t]).value.id == id
      ensures s.place[id] == AtThread(t)
    {
      assert CarriedOk(s, t);
    }
  }

  // ---------------------------------------------------------------- channels

  /** There is at most one channel per name, although the table would allow duplicates. */
  lemma OneChannelPerName(s: State)
    requires Reachable(s)
    ensures forall n :: n in s.table ==> |s.table[n]| == 1
    ensures forall c, d :: 0 <= c < |s.chans| && 0 <= d < |s.chans| && s.chans[c].name == s.chans[d].name ==> c == d
  {
    ReachableInv(s);
    forall c, d | 0 <= c < |s.chans| && 0 <= d < |s.chans| && s.chans[c].name == s.chans[d].name ensures c == d {
      assert s.table[s.chans[c].name] == [c] && s.table[s.chans[d].name] == [d];
    }
  }

  /** Every message a subscriber gets was published, unchanged, on the channel it subscribed to. */
  lemma InboxesCarryTheirChannel(s: State, p: nat, i: nat)
    requires Reachable(s) && p < |s.subs| && i < |History(s.subs[p])|
    ensures History(s.subs[p])[i].name == s.subs[p].name && Genuine(s, History(s.subs[p])[i])
  {
    ReachableInv(s);
    assert SegmentOk(s, p) && BornOk(s, p);
    var c := s.subs[p].chan;
    SegmentAt(History(s.subs[p]), s.chans[c].log, s.subs[p].join, i);
  }

  // ---------------------------------------------------------------- lifetimes

  /** A walk only touches proxies that are linked and not freed, and every index it uses exists. */
  lemma WalkTouchesLinked(s: State, t: nat)
    requires Reachable(s) && t < |s.threads| && s.threads[t].Worker? && Walking(s.threads[t].w)
    requires s.threads[t].w.WAt? ==> s.threads[t].w.c < |s.chans| && s.threads[t].w.i < |s.chans[s.threads[t].w.c].proxies|
    ensures AtProxy(s, s.threads[t].w)
    ensures s.subs[Reached(s, s.threads[t].w)].life.Linked? && s.subs[Reached(s, s.threads[t].w)].frees == 0
  {
    ReachableInv(s);
    var w := s.threads[t].w;
    assert Standing(s, s.threads[t]) && HeldChan(s.threads[t]) == Some(w.c);
    assert EntryOk(s, w.c, w.i);
    assert HandleOk(s, Reached(s, w));
  }

  /** A call on a handle touches its proxy only while that is linked. */
  lemma CallTouchesLinked(s: State, t: nat)
    requires Reachable(s) && t < |s.threads|
    ensures s.threads[t].Receiving? && !s.threads[t].r.RTest? && !s.threads[t].r.TTest? ==>
              s.threads[t].p < |s.subs| && s.subs[s.threads[t].p].life.Linked? && s.subs[s.threads[t].p].active
    ensures s.threads[t].Leaving? && BeforeFree(s.threads[t].u) ==>
              s.threads[t].p < |s.subs| && s.subs[s.threads[t].p].life.Linked?
  {
    ReachableInv(s);
    assert CallState(s, s.threads[t]);
  }

  /** Unsubscribe removes its own proxy and no other; the rest keep their order, inboxes and histories. */
  lemma UnsubscribeRemovesItsOwn(s: State, t: nat)
    requires Reachable(s) && CanGo(s, t) && s.threads[t].Leaving? && s.threads[t].u.UUnlink?
    ensures var c, i, p := s.threads[t].u.c, s.threads[t].u.i, s.threads[t].p;
            && s.chans[c].proxies[i] == p
            && GoStep(s, t).chans[c].proxies == s.chans[c].proxies[..i] + s.chans[c].proxies[i + 1..]
            && p !in GoStep(s, t).chans[c].proxies && GoStep(s, t).subs == s.subs
  {
    ReachableInv(s);
    var c, i, p := s.threads[t].u.c, s.threads[t].u.i, s.threads[t].p;
    assert Standing(s, s.threads[t]) && Distinct(s.chans[c].proxies);
    WithoutDistinct(s.chans[c].proxies, i);
    assert GoStep(s, t).subs == s.subs[p := UnsubSub(s.subs[p], s.threads[t].u)] == s.subs by {
      assert CallState(s, s.threads[t]) && HandleOk(s, p);
    }
  }

  /** The search of unsubscribe always finds its channel and its proxy. */
  lemma UnsubscribeFinds(s: State, t: nat)
    requires Reachable(s) && CanGo(s, t) && s.threads[t].Leaving?
    ensures s.threads[t].u.ULookup? ==> GoStep(s, t).threads[t] == Leaving(s.threads[t].p, ULockChan(s.subs[s.threads[t].p].chan))
    ensures s.threads[t].u.UAt? ==> s.threads[t].u.i < |s.chans[s.threads[t].u.c].proxies|
  {
    ReachableInv(s);
    assert CallState(s, s.threads[t]) && Standing(s, s.threads[t]);
    LeaverFinds(s, t);
  }

  /** Over unsubscribe, repeated unsubscribe, free and teardown, each proxy is freed at most once, and in the end once. */
  lemma FreedOnce(s: State, p: nat)
    requires Reachable(s) && p < |s.subs|
    ensures s.subs[p].frees <= 1
    ensures s.subs[p].handle.Inactive? || s.subs[p].handle.Released? || s.down ==> s.subs[p].frees == 1
  {
    ReachableInv(s);
    assert HandleOk(s, p);
  }

  /** Why a thread may be unable to step: no call, nothing to do, asleep, or a mutex it needs is taken. */
  predicate Blocked(s: State, th: Thread) {
    match th
    case Worker(w) =>
      || (w.WIdle? && s.queue == [])
      || (w.WLockAll? && s.all.HeldBy?)
      || (w.WLockChan? && w.c < |s.chans| && s.chans[w.c].lock.HeldBy?)
      || (w.WSignal? && AtProxy(s, w) && s.subs[Reached(s, w)].lock.HeldBy?)
    case Publishing(_) => false
    case Subscribing(_, x) =>
      (x.SLockAll? && s.all.HeldBy?) || (x.SLockChan? && x.c < |s.chans| && s.chans[x.c].lock.HeldBy?)
    case Receiving(p, r) => r.RAsleep? || ((r.RLock? || r.RWoken?) && p < |s.subs| && s.subs[p].lock.HeldBy?)
    case Leaving(p, u) =>
      || (u.ULockAll? && s.all.HeldBy?)
      || (u.ULockChan? && u.c < |s.chans| && s.chans[u.c].lock.HeldBy?)
      || ((u.UWake? || u.UFree?) && p < |s.subs| && s.subs[p].lock.HeldBy?)
    case Idle => true
    case Done(_, _, _) => true
  }

  /** Every index a step uses exists: a thread that cannot step is waiting, never out of range. */
  lemma NeverOutOfRange(s: State, t: nat)
    requires Reachable(s) && !s.down && t < |s.threads|
    ensures CanGo(s, t) <==> !Blocked(s, s.threads[t])
  {
    ReachableInv(s);
    var th := s.threads[t];
    assert Standing(s, th) && LookedUp(s, th);
    assert Using(th).Some? ==> th.p < |s.subs|;
    if th.Worker? && Walking(th.w) && th.w.i < |s.chans[th.w.c].proxies| {
      assert EntryOk(s, th.w.c, th.w.i);
    }
    GoesUnlessBlocked(s, t);
  }

  lemma GoesUnlessBlocked(s: State, t: nat)
    requires !s.down && t < |s.threads| && Standing(s, s.threads[t]) && LookedUp(s, s.threads[t])
    requires Using(s.threads[t]).Some? ==> s.threads[t].p < |s.subs|
    requires
      var th := s.threads[t];
      th.Worker? && Walking(th.w) && th.w.i < |s.chans[th.w.c].proxies| ==> s.chans[th.w.c].proxies[th.w.i] < |s.subs|
    ensures CanGo(s, t) <==> !Blocked(s, s.threads[t])
  {
  }

  // ---------------------------------------------------------------- progress

  /** Nothing to do: no call, no task, or asleep over an empty inbox until somebody signals. */
  predicate Resting(s: State, th: Thread) {
    th.Idle? || th.Done? || Asleep(th) || (th.Worker? && th.w.WIdle? && s.queue == [])
  }

  predicate WantsInbox(th: Thread) {
    || (th.Worker? && th.w.WSignal?)
    || (th.Receiving? && (th.r.RLock? || th.r.RWoken?))
    || (th.Leaving? && (th.u.UWake? || th.u.UFree?))
  }

  predicate WantsChan(th: Thread) {
    || (th.Worker? && th.w.WLockChan?) || (th.Subscribing? && th.s.SLockChan?) || (th.Leaving? && th.u.ULockChan?)
  }

  predicate WantsAll(th: Thread) {
    || (th.Worker? && th.w.WLockAll?) || (th.Subscribing? && th.s.SLockAll?) || (th.Leaving? && th.u.ULockAll?)
  }

  /** A blocked thread that does not rest waits for one of the three kinds of mutex. */
  lemma WaitsForMutex(s: State, th: Thread)
    requires Blocked(s, th) && !Resting(s, th)
    ensures WantsInbox(th) || WantsChan(th) || WantsAll(th)
  {
  }

  /** Whoever holds an inbox mutex is not blocked. */
  lemma InboxHolderFree(s: State, t: nat) returns (u: nat)
    requires InboxLocks(s) && t < |s.threads| && Blocked(s, s.threads[t]) && WantsInbox(s.threads[t])
    requires s.threads[t].Worker? ==> Reached(s, s.threads[t].w) < |s.subs|
    ensures u < |s.threads| && !Blocked(s, s.threads[u])
  {
    var th := s.threads[t];
    var p := if th.Worker? then Reached(s, th.w) else th.p;
    u := s.subs[p].lock.thread;
    assert HeldInbox(s.threads[u]) == Some(p);
  }

  /** Whoever holds a channel mutex is not blocked, or waits for an inbox. */
  lemma ChanHolderFree(s: State, t: nat) returns (u: nat)
    requires ChanLocks(s) && t < |s.threads| && Blocked(s, s.threads[t]) && WantsChan(s.threads[t])
    ensures u < |s.threads| && (!Blocked(s, s.threads[u]) || WantsInbox(s.threads[u]))
  {
    var c := FoundChan(s.threads[t]).value;
    u := s.chans[c].lock.thread;
    assert HeldChan(s.threads[u]) == Some(c);
  }

  /** Whoever holds the channels mutex is not blocked, or waits for a channel or an inbox. */
  lemma AllHolderFree(s: State, t: nat) returns (u: nat)
    requires AllLock(s) && t < |s.threads| && Blocked(s, s.threads[t]) && WantsAll(s.threads[t])
    ensures u < |s.threads|
    ensures !Blocked(s, s.threads[u]) || WantsInbox(s.threads[u]) || WantsChan(s.threads[u])
  {
    u := s.all.thread;
    assert HoldsAll(s.threads[u]);
  }

  /** Follow the waits from mutex to mutex: at the end somebody is not blocked. */
  lemma SomeoneFree(s: State, t: nat) returns (u: nat)
    requires Locks(s) && t < |s.threads| && !Resting(s, s.threads[t])
    requires forall v :: 0 <= v < |s.threads| && s.threads[v].Worker? && s.threads[v].w.WSignal? ==>
      AtProxy(s, s.threads[v].w)
    ensures u < |s.threads| && !Blocked(s, s.threads[u])
  {
    u := t;
    if Blocked(s, s.threads[u]) {
      WaitsForMutex(s, s.threads[u]);
      if WantsAll(s.threads[u]) {
        u := AllHolderFree(s, u);
      }
    }
    if Blocked(s, s.threads[u]) && WantsChan(s.threads[u]) {
      u := ChanHolderFree(s, u);
    }
    if Blocked(s, s.threads[u]) {
      u := InboxHolderFree(s, u);
    }
  }

  /** The protocol never gets stuck: unless every thread rests, some thread can take its next step. */
  lemma SomeoneGoes(s: State, t: nat) returns (u: nat)
    requires Reachable(s) && !s.down && t < |s.threads| && !Resting(s, s.threads[t])
    ensures CanGo(s, u)
  {
    forall v | 0 <= v < |s.threads| && s.threads[v].Worker? && s.threads[v].w.WSignal? ensures AtProxy(s, s.threads[v].w) {
      WalkTouchesLinked(s, v);
    }
    ReachableInv(s);
    u := SomeoneFree(s, t);
    NeverOutOfRange(s, u);
  }

  // ---------------------------------------------------------------- receiving

  /** A receive that returns 0 carries the oldest message not yet taken: the next one of the channel log. */
  lemma ReceiveReturnsOldest(s: State, t: nat)
    requires Reachable(s) && CanGo(s, t) && s.threads[t].Receiving?
    requires GoStep(s, t).threads[t].Done? && GoStep(s, t).threads[t].code == 0
    ensures var sub := s.subs[s.threads[t].p]; var sub' := GoStep(s, t).subs[s.threads[t].p]; var got := GoStep(s, t).threads[t].msg;
            && sub.inbox != [] && got == Some(sub.inbox[0])
            && sub'.taken == sub.taken + [sub.inbox[0]] && sub'.inbox == sub.inbox[1..]
            && sub.chan < |s.chans| && sub.join + |sub.taken| < |s.chans[sub.chan].log|
            && got == Some(s.chans[sub.chan].log[sub.join + |sub.taken|])
  {
    ReceiverFacts(s, t);
    TakesOldest(s, t);
    NextOfLog(s, s.threads[t].p);
  }

  lemma ReceiverFacts(s: State, t: nat)
    requires Reachable(s) && t < |s.threads| && s.threads[t].Receiving?
    ensures ConsumerOk(s, s.threads[t]) && CallState(s, s.threads[t])
    ensures s.threads[t].p < |s.subs| && SegmentOk(s, s.threads[t].p)
  {
    ReachableInv(s);
    assert ConsumerOk(s, s.threads[t]) && CallState(s, s.threads[t]);
    assert SegmentOk(s, s.threads[t].p);
  }

  lemma TakesOldest(s: State, t: nat)
    requires CanGo(s, t) && s.threads[t].Receiving? && ConsumerOk(s, s.threads[t]) && CallState(s, s.threads[t])
    requires GoStep(s, t).threads[t].Done? && GoStep(s, t).threads[t].code == 0
    ensures
      var sub, sub' := s.subs[s.threads[t].p], GoStep(s, t).subs[s.threads[t].p];
      && sub.inbox != [] && GoStep(s, t).threads[t].msg == Some(sub.inbox[0]) && sub.life.Linked?
      && sub'.taken == sub.taken + [sub.inbox[0]] && sub'.inbox == sub.inbox[1..]
  {
    var th := s.threads[t];
    assert GoStep(s, t).threads[t] == RecvNext(s.subs[th.p], th.p, th.r);
  }

  /** The head of an inbox is the entry of the log that follows what has been taken. */
  lemma NextOfLog(s: State, p: nat)
    requires p < |s.subs| && SegmentOk(s, p) && s.subs[p].inbox != []
    ensures
      var sub := s.subs[p];
      && sub.chan < |s.chans| && sub.join + |sub.taken| < |s.chans[sub.chan].log|
      && sub.inbox[0] == s.chans[sub.chan].log[sub.join + |sub.taken|]
  {
    var h := History(s.subs[p]);
    assert h[|s.subs[p].taken|] == s.subs[p].inbox[0];
  }

  /** No wake-up is missed: a consumer asleep over a non-empty inbox is about to be signalled. */
  lemma NoMissedWakeup(s: State, t: nat)
    requires Reachable(s) && t < |s.threads| && Asleep(s.threads[t])
    ensures s.threads[t].p < |s.subs|
    ensures s.subs[s.threads[t].p].inbox != [] ==> SignalComing(s, s.threads[t].p)
  {
    ReachableInv(s);
    assert ConsumerOk(s, s.threads[t]);
  }

  // ---------------------------------------------------------------- one worker

  /** With one worker and publish calls that do not overlap, ids increase strictly in every history. */
  lemma SerialIdsIncrease(s: State, p: nat)
    requires Reachable(s) && s.workers <= 1 && s.serial && p < |s.subs|
    ensures Increasing(History(s.subs[p]))
  {
    ReachableInv(s);
    assert SegmentOk(s, p);
    if !s.subs[p].life.Private? {
      assert Increasing(s.chans[s.subs[p].chan].log);
    }
  }
}
