/** The shape of the broker's data that every interleaving keeps: mutexes, table, lists, lifetimes. */
module BrokerStructure {
  import opened Prelude
  import opened Broker
  import opened BrokerSteps

  // ---------------------------------------------------------------- mutexes

  ghost predicate AllLock(s: State) {
    && (forall t :: 0 <= t < |s.threads| ==> (HoldsAll(s.threads[t]) <==> s.all == HeldBy(t)))
    && (s.all.HeldBy? ==> s.all.thread < |s.threads|)
  }

  ghost predicate ChanLocks(s: State) {
    && (forall t :: 0 <= t < |s.threads| && HeldChan(s.threads[t]).Some? ==>
          var c := HeldChan(s.threads[t]).value; c < |s.chans| && s.chans[c].lock == HeldBy(t))
    && (forall c :: 0 <= c < |s.chans| && s.chans[c].lock.HeldBy? ==>
          var t := s.chans[c].lock.thread; t < |s.threads| && HeldChan(s.threads[t]) == Some(c))
  }

  ghost predicate InboxLocks(s: State) {
    && (forall t :: 0 <= t < |s.threads| && HeldInbox(s.threads[t]).Some? ==>
          var p := HeldInbox(s.threads[t]).value; p < |s.subs| && s.subs[p].lock == HeldBy(t))
    && (forall p :: 0 <= p < |s.subs| && s.subs[p].lock.HeldBy? ==>
          var t := s.subs[p].lock.thread; t < |s.threads| && HeldInbox(s.threads[t]) == Some(p))
  }

  ghost predicate Users(s: State) {
    && (forall t :: 0 <= t < |s.threads| && Using(s.threads[t]).Some? ==>
          var p := Using(s.threads[t]).value; p < |s.subs| && s.subs[p].user == HeldBy(t))
    && (forall p :: 0 <= p < |s.subs| && s.subs[p].user.HeldBy? ==>
          var t := s.subs[p].user.thread; t < |s.threads| && Using(s.threads[t]) == Some(p))
  }

  ghost predicate Locks(s: State) {
    AllLock(s) && ChanLocks(s) && InboxLocks(s) && Users(s)
  }

  lemma WokenHoldsTheSame(th: Thread, th': Thread)
    requires ThreadAfter(th, th')
    ensures HoldsAll(th') == HoldsAll(th) && HeldChan(th') == HeldChan(th) && HeldInbox(th') == HeldInbox(th)
    ensures Using(th') == Using(th) && FoundChan(th') == FoundChan(th) && Creates(th') == Creates(th)
  {
  }

  lemma OthersHoldTheSame(s: State, s': State, t: nat)
    requires Frame(s, s', t)
    ensures forall u :: 0 <= u < |s.threads| && u != t ==>
              && HoldsAll(s'.threads[u]) == HoldsAll(s.threads[u]) && HeldChan(s'.threads[u]) == HeldChan(s.threads[u])
              && HeldInbox(s'.threads[u]) == HeldInbox(s.threads[u]) && Using(s'.threads[u]) == Using(s.threads[u])
  {
    forall u | 0 <= u < |s.threads| && u != t
      ensures HoldsAll(s'.threads[u]) == HoldsAll(s.threads[u]) && HeldChan(s'.threads[u]) == HeldChan(s.threads[u])
      ensures HeldInbox(s'.threads[u]) == HeldInbox(s.threads[u]) && Using(s'.threads[u]) == Using(s.threads[u])
    {
      WokenHoldsTheSame(s.threads[u], s'.threads[u]);
    }
  }

  lemma AllLockKept(s: State, s': State, t: nat)
    requires AllLock(s) && Frame(s, s', t) && AllMoves(s, s', t)
    ensures AllLock(s')
  {
    OthersHoldTheSame(s, s', t);
  }

  lemma ChanLocksKept(s: State, s': State, t: nat)
    requires ChanLocks(s) && Frame(s, s', t) && ChanMoves(s, s', t)
    ensures ChanLocks(s')
  {
    OthersHoldTheSame(s, s', t);
    forall u | 0 <= u < |s'.threads| && HeldChan(s'.threads[u]).Some?
      ensures HeldChan(s'.threads[u]).value < |s'.chans| && s'.chans[HeldChan(s'.threads[u]).value].lock == HeldBy(u)
    {
      if u != t {
        assert HeldChan(s.threads[u]) == HeldChan(s'.threads[u]);
      }
    }
  }

  lemma InboxLocksKept(s: State, s': State, t: nat)
    requires InboxLocks(s) && Frame(s, s', t) && SubMoves(s, s', t)
    ensures InboxLocks(s')
  {
    OthersHoldTheSame(s, s', t);
  }

  lemma UsersKept(s: State, s': State, t: nat)
    requires Users(s) && Frame(s, s', t) && SubMoves(s, s', t)
    ensures Users(s')
  {
    OthersHoldTheSame(s, s', t);
  }

  // ---------------------------------------------------------------- the channel table

  /** One channel per name: every stack of the table is exactly the one channel of that name. */
  ghost predicate TableUnique(s: State) {
    && (forall n :: n in s.table ==>
          |s.table[n]| == 1 && s.table[n][0] < |s.chans| && s.chans[s.table[n][0]].name == n)
    && (forall c :: 0 <= c < |s.chans| ==> s.chans[c].name in s.table && s.table[s.chans[c].name] == [c])
  }

  /** A thread that looked a channel up has the one of its name; one about to create found none. */
  ghost predicate LookedUp(s: State, th: Thread) {
    && (FoundChan(th).Some? ==>
          FoundChan(th).value < |s.chans| && s.chans[FoundChan(th).value].name == Subject(s, th))
    && (Creates(th) ==> Subject(s, th) !in s.table)
  }

  ghost predicate Lookups(s: State) {
    forall t :: 0 <= t < |s.threads| ==> LookedUp(s, s.threads[t])
  }

  lemma TableUniqueKept(s: State, s': State, t: nat)
    requires TableUnique(s) && Lookups(s) && Frame(s, s', t) && ChanMoves(s, s', t)
    ensures TableUnique(s')
  {
    assert LookedUp(s, s.threads[t]);
  }

  lemma LookupsStable(s: State, s': State, t: nat, u: nat)
    requires u < |s.threads| && u != t && AllLock(s) && Users(s) && LookedUp(s, s.threads[u])
    requires Frame(s, s', t) && ChanMoves(s, s', t) && SubMoves(s, s', t)
    ensures LookedUp(s', s'.threads[u])
  {
    WokenHoldsTheSame(s.threads[u], s'.threads[u]);
    assert Subject(s', s'.threads[u]) == Subject(s, s.threads[u]);
    if Creates(s.threads[u]) {
      assert HoldsAll(s.threads[u]) && s.all == HeldBy(u);
      assert !Creates(s.threads[t]);
    }
  }

  lemma LookupsOwnWorker(s: State, t: nat)
    requires CanGo(s, t) && s.threads[t].Worker? && TableUnique(s) && LookedUp(s, s.threads[t])
    ensures LookedUp(GoStep(s, t), GoStep(s, t).threads[t])
  {
    assert GoStep(s, t).threads[t] == Worker(WorkerNext(s, s.threads[t].w));
  }

  lemma LookupsOwnSubscriber(s: State, t: nat)
    requires CanGo(s, t) && s.threads[t].Subscribing? && TableUnique(s) && LookedUp(s, s.threads[t])
    ensures LookedUp(GoStep(s, t), GoStep(s, t).threads[t])
  {
    assert GoStep(s, t).threads[t] == SubNext(s, s.threads[t].p, s.threads[t].s);
  }

  lemma LookupsOwnLeaver(s: State, t: nat)
    requires CanGo(s, t) && s.threads[t].Leaving? && TableUnique(s) && LookedUp(s, s.threads[t])
    ensures LookedUp(GoStep(s, t), GoStep(s, t).threads[t])
  {
    assert GoStep(s, t).threads[t] == UnsubNext(s, s.threads[t].p, s.threads[t].u);
  }

  lemma LookupsOwnOther(s: State, t: nat)
    requires CanGo(s, t) && (s.threads[t].Receiving? || s.threads[t].Publishing?)
    ensures LookedUp(GoStep(s, t), GoStep(s, t).threads[t])
  {
    assert !GoStep(s, t).threads[t].Worker? && !GoStep(s, t).threads[t].Subscribing? && !GoStep(s, t).threads[t].Leaving?;
  }

  lemma LookupsOwn(s: State, t: nat)
    requires CanGo(s, t) && TableUnique(s) && LookedUp(s, s.threads[t])
    ensures LookedUp(GoStep(s, t), GoStep(s, t).threads[t])
  {
    match s.threads[t]
    case Worker(_) => LookupsOwnWorker(s, t);
    case Subscribing(_, _) => LookupsOwnSubscriber(s, t);
    case Leaving(_, _) => LookupsOwnLeaver(s, t);
    case _ => LookupsOwnOther(s, t);
  }

  lemma LookupsKept(s: State, t: nat)
    requires AllLock(s) && Users(s) && TableUnique(s) && Lookups(s) && CanGo(s, t)
    ensures Lookups(GoStep(s, t))
  {
    var s' := GoStep(s, t);
    GoEffect(s, t);
    forall u | 0 <= u < |s'.threads| ensures LookedUp(s', s'.threads[u]) {
      if u == t {
        LookupsOwn(s, t);
      } else {
        LookupsStable(s, s', t, u);
      }
    }
  }
}
