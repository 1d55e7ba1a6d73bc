/** The consumer's side: no wake-up is missed, and the dequeue after the wait finds a message. */
module BrokerReceive {
  import opened Prelude
  import opened Broker
  import opened BrokerSteps
  import opened BrokerStructure
  import opened BrokerLists
  import opened BrokerOrder

  /** A walk has appended to the inbox of `p` and not yet signalled. */
  predicate SignalComing(s: State, p: nat) {
    && p < |s.subs| && s.subs[p].chan < |s.chans|
    && var c := s.subs[p].chan;
    && var l := s.chans[c].lock;
    && l.HeldBy? && l.thread < |s.threads| && s.threads[l.thread].Worker?
    && var w := s.threads[l.thread].w;
    && w.WSignal? && w.c == c && w.i < |s.chans[c].proxies| && s.chans[c].proxies[w.i] == p
  }

  /** Committed to take a message. */
  predicate Taking(r: RecvPc) {
    r.RActiveAgain? || r.RUnlock? || r.RTake? || r.TTake?
  }

  /** Has seen an empty inbox, under the inbox mutex, and not been woken since. */
  predicate Waiting(r: RecvPc) {
    r.RActive? || r.RGoSleep? || r.RAsleep?
  }

  predicate ConsumerOk(s: State, th: Thread) {
    th.Receiving? ==>
      && th.p < |s.subs|
      && (Taking(th.r) ==> s.subs[th.p].inbox != [])
      && (Waiting(th.r) && s.subs[th.p].inbox != [] ==> SignalComing(s, th.p))
  }

  ghost predicate Consumers(s: State) {
    forall t :: 0 <= t < |s.threads| ==> ConsumerOk(s, s.threads[t])
  }

  lemma SignalDelivered(s: State, t: nat, u: nat)
    requires Structure(s) && CanGo(s, t) && s.threads[t].Worker? && s.threads[t].w.WSignal?
    requires u < |s.threads| && s.threads[u].Receiving? && s.threads[u].p == Reached(s, s.threads[t].w)
    ensures GoStep(s, t).threads[u].Receiving? && !Waiting(GoStep(s, t).threads[u].r)
  {
    var p := s.threads[u].p;
    assert Using(s.threads[u]) == Some(p) && s.subs[p].user == HeldBy(u);
    assert HeldInbox(s.threads[u]).None?;
  }

  /** A signal still owed by another worker stays owed. */
  lemma SignalStaysComing(s: State, s': State, t: nat, p: nat)
    requires Structure(s) && Effect(s, s', t) && SignalComing(s, p)
    requires s.chans[s.subs[p].chan].lock != HeldBy(t)
    requires s'.subs[p].chan == s.subs[p].chan
    requires s.threads[t].Worker? && s.threads[t].w.WLockChan? ==> HeldChan(s'.threads[t]) == Some(s.threads[t].w.c)
    ensures SignalComing(s', p)
  {
    var c := s.subs[p].chan;
    var l := s.chans[c].lock.thread;
    assert HeldChan(s.threads[l]) == Some(c);
    ChannelElsewhere(s, s', t, c);
  }

  /** Appending to an inbox makes the signal due. */
  lemma PushOwesSignal(s: State, t: nat)
    requires Structure(s) && CanGo(s, t) && s.threads[t].Worker? && s.threads[t].w.WPush?
    ensures SignalComing(GoStep(s, t), Reached(s, s.threads[t].w))
  {
    var w := s.threads[t].w;
    assert GoStep(s, t).threads[t] == Worker(WSignal(w.m, w.c, w.i));
    assert EntryOk(s, w.c, w.i);
    assert HeldChan(s.threads[t]) == Some(w.c);
  }

  lemma WaiterStable(s: State, t: nat, u: nat)
    requires Structure(s) && CanGo(s, t) && u < |s.threads| && u != t
    requires s.threads[u].Receiving? && Waiting(s.threads[u].r) && SignalComing(s, s.threads[u].p)
    requires Effect(s, GoStep(s, t), t)
    ensures GoStep(s, t).threads[u].Receiving? && GoStep(s, t).threads[u].p == s.threads[u].p
    ensures Waiting(GoStep(s, t).threads[u].r) ==> SignalComing(GoStep(s, t), s.threads[u].p)
  {
    var p := s.threads[u].p;
    assert Using(s.threads[u]) == Some(p) && Using(s.threads[t]) != Some(p);
    if s.chans[s.subs[p].chan].lock == HeldBy(t) {
      SignalDelivered(s, t, u);
    } else {
      if s.threads[t].Worker? {
        WorkerAcquires(s, t);
      }
      SignalStaysComing(s, GoStep(s, t), t, p);
    }
  }

  lemma ConsumerStable(s: State, t: nat, u: nat)
    requires Structure(s) && CanGo(s, t) && u < |s.threads| && u != t && ConsumerOk(s, s.threads[u])
    requires Effect(s, GoStep(s, t), t)
    ensures ConsumerOk(GoStep(s, t), GoStep(s, t).threads[u])
  {
    var th := s.threads[u];
    if th.Receiving? {
      if PushesTo(s, s.threads[t], th.p) {
        ConsumerPushed(s, t, u);
      } else {
        ConsumerPassed(s, t, u);
      }
    }
  }

  lemma ConsumerPushed(s: State, t: nat, u: nat)
    requires Structure(s) && CanGo(s, t) && u < |s.threads| && u != t && Effect(s, GoStep(s, t), t)
    requires s.threads[u].Receiving? && ConsumerOk(s, s.threads[u]) && PushesTo(s, s.threads[t], s.threads[u].p)
    ensures ConsumerOk(GoStep(s, t), GoStep(s, t).threads[u])
  {
    PushOwesSignal(s, t);
  }

  lemma ConsumerPassed(s: State, t: nat, u: nat)
    requires Structure(s) && CanGo(s, t) && u < |s.threads| && u != t && Effect(s, GoStep(s, t), t)
    requires s.threads[u].Receiving? && ConsumerOk(s, s.threads[u]) && !PushesTo(s, s.threads[t], s.threads[u].p)
    ensures ConsumerOk(GoStep(s, t), GoStep(s, t).threads[u])
  {
    var th := s.threads[u];
    if Waiting(th.r) && SignalComing(s, th.p) {
      WaiterStable(s, t, u);
    }
    ConsumerUnmoved(s, GoStep(s, t), t, u);
  }

  lemma ConsumerUnmoved(s: State, s': State, t: nat, u: nat)
    requires Structure(s) && Effect(s, s', t) && u < |s.threads| && u != t
    requires s.threads[u].Receiving? && ConsumerOk(s, s.threads[u]) && !PushesTo(s, s.threads[t], s.threads[u].p)
    requires Waiting(s.threads[u].r) && SignalComing(s, s.threads[u].p) ==>
      s'.threads[u].Receiving? && (Waiting(s'.threads[u].r) ==> SignalComing(s', s.threads[u].p))
    ensures ConsumerOk(s', s'.threads[u])
  {
    InboxPassed(s, s', t, u);
    assert ThreadAfter(s.threads[u], s'.threads[u]);
  }

  lemma InboxPassed(s: State, s': State, t: nat, u: nat)
    requires Structure(s) && Effect(s, s', t) && u < |s.threads| && u != t
    requires s.threads[u].Receiving? && s.threads[u].p < |s.subs| && !PushesTo(s, s.threads[t], s.threads[u].p)
    ensures s.threads[u].p < |s'.subs| && s'.subs[s.threads[u].p].inbox == s.subs[s.threads[u].p].inbox
  {
    assert Using(s.threads[u]) == Some(s.threads[u].p) && Using(s.threads[t]) != Some(s.threads[u].p);
  }

  /** A step of the consumer itself moves no walk. */
  lemma SignalOutlivesConsumer(s: State, t: nat, p: nat)
    requires CanGo(s, t) && s.threads[t].Receiving? && SignalComing(s, p)
    ensures SignalComing(GoStep(s, t), p)
  {
    assert GoStep(s, t).chans == s.chans;
  }

  lemma ReceiverConsumes(s: State, t: nat)
    requires CanGo(s, t) && s.threads[t].Receiving? && ConsumerOk(s, s.threads[t]) && CallState(s, s.threads[t])
    ensures ConsumerOk(GoStep(s, t), GoStep(s, t).threads[t])
  {
    var th := s.threads[t];
    assert GoStep(s, t).threads[t] == RecvNext(s.subs[th.p], th.p, th.r);
    if Waiting(th.r) && s.subs[th.p].inbox != [] {
      SignalOutlivesConsumer(s, t, th.p);
    }
  }

  lemma OthersNeverReceive(s: State, t: nat)
    requires CanGo(s, t) && !s.threads[t].Receiving?
    ensures !GoStep(s, t).threads[t].Receiving?
  {
    GoKind(s, t);
  }

  lemma ConsumerOwn(s: State, t: nat)
    requires Structure(s) && CanGo(s, t) && ConsumerOk(s, s.threads[t])
    ensures ConsumerOk(GoStep(s, t), GoStep(s, t).threads[t])
  {
    if s.threads[t].Receiving? {
      assert CallState(s, s.threads[t]);
      ReceiverConsumes(s, t);
    } else {
      OthersNeverReceive(s, t);
    }
  }

  lemma ConsumersOutside(s: State, s': State, t: nat)
    requires Consumers(s) && t < |s.threads| == |s'.threads| && s'.chans == s.chans && |s.subs| <= |s'.subs|
    requires !s.threads[t].Worker? && ConsumerOk(s', s'.threads[t])
    requires forall u :: 0 <= u < |s.threads| && u != t ==> s'.threads[u] == s.threads[u]
    requires forall p :: 0 <= p < |s.subs| ==> s'.subs[p].inbox == s.subs[p].inbox && s'.subs[p].chan == s.subs[p].chan
    ensures Consumers(s')
  {
    forall u | 0 <= u < |s'.threads| ensures ConsumerOk(s', s'.threads[u]) {
      assert ConsumerOk(s, s.threads[u]);
    }
  }

  lemma GoKeepsConsumers(s: State, t: nat)
    requires Structure(s) && Consumers(s) && CanGo(s, t)
    ensures Consumers(GoStep(s, t))
  {
    GoEffect(s, t);
    forall u | 0 <= u < |s.threads| ensures ConsumerOk(GoStep(s, t), GoStep(s, t).threads[u]) {
      assert ConsumerOk(s, s.threads[u]);
      if u == t {
        ConsumerOwn(s, t);
      } else {
        ConsumerStable(s, t, u);
      }
    }
  }

  lemma ConsumersKept(s: State, step: Step)
    requires Structure(s) && Consumers(s) && Enabled(s, step)
    ensures Consumers(Apply(s, step))
  {
    match step
    case Go(t) => GoKeepsConsumers(s, t);
    case Begin(t, op) => BeginKeepsConsumers(s, t, op);
    case Spurious(t) =>
      assert ConsumerOk(s, s.threads[t]);
      ConsumersOutside(s, Apply(s, step), t);
    case Teardown =>
      forall u | 0 <= u < |s.threads| ensures ConsumerOk(Apply(s, step), Apply(s, step).threads[u]) {
        assert Quiet(s.threads[u]);
      }
  }

  lemma BeginKeepsConsumers(s: State, t: nat, op: Op)
    requires Consumers(s) && CanBegin(s, t, op)
    ensures Consumers(BeginStep(s, t, op))
  {
    ConsumersOutside(s, BeginStep(s, t, op), t);
  }
}
