/** Proxy lists and proxy lifetimes, in every state of every interleaving. */
module BrokerLists {
  import opened Prelude
  import opened Broker
  import opened BrokerSteps
  import opened BrokerStructure

  // ---------------------------------------------------------------- what each position promises

  predicate BeforeFree(u: UnsubPc) {
    u.UDeact? || u.UWake? || u.ULockAll? || u.ULookup? || u.ULockChan? || u.UAt? || u.UFree?
  }

  predicate AfterFree(u: UnsubPc) {
    u.UUnlink? || u.UUnlockChan? || u.UUnlockAll? || u.UClear?
  }

  /** What the position of a thread says about the subscription it calls on. */
  predicate CallState(s: State, th: Thread) {
    Using(th).Some? ==>
      && th.p < |s.subs|
      && var sub := s.subs[th.p];
      && (th.Subscribing? ==>
            && sub.handle.NotReturned? && sub.active
            && (if th.s.SUnlockChan? || th.s.SReturn? then sub.life.Linked? else sub.life.Private?))
      && (th.Receiving? && !th.r.RTest? && !th.r.TTest? ==> sub.handle.Active? && sub.active && sub.life.Linked?)
      && (th.Leaving? && BeforeFree(th.u) ==> sub.handle.Active? && sub.life.Linked?)
      && (th.Leaving? && AfterFree(th.u) ==> sub.handle.Active? && sub.life.Freed?)
  }

  /** Where a thread stands in a proxy list. */
  predicate Standing(s: State, th: Thread) {
    && (th.Worker? && Walking(th.w) ==>
          th.w.c < |s.chans| && if th.w.WAt? then th.w.i <= |s.chans[th.w.c].proxies| else th.w.i < |s.chans[th.w.c].proxies|)
    && (th.Leaving? && UnsubOnChan(th.u) && BeforeFree(th.u) ==>
          th.p < |s.subs| && th.u.c < |s.chans| && s.subs[th.p].chan == th.u.c)
    && (th.Leaving? && th.u.UAt? ==>
          && th.u.c < |s.chans| && th.u.i <= |s.chans[th.u.c].proxies|
          && forall j :: 0 <= j < th.u.i ==> s.chans[th.u.c].proxies[j] != th.p)
    && (th.Leaving? && (th.u.UFree? || th.u.UUnlink?) ==>
          && th.u.c < |s.chans| && th.u.i < |s.chans[th.u.c].proxies| && s.chans[th.u.c].proxies[th.u.i] == th.p)
  }

  ghost predicate Calls(s: State) {
    forall t :: 0 <= t < |s.threads| ==> CallState(s, s.threads[t])
  }

  ghost predicate Standings(s: State) {
    forall t :: 0 <= t < |s.threads| ==> Standing(s, s.threads[t])
  }

  // ---------------------------------------------------------------- lists and handles

  /** The holder of channel `c` is about to unlink entry `k`, whose proxy it has just freed. */
  predicate UnlinkingAt(s: State, c: nat, k: nat)
    requires c < |s.chans| && k < |s.chans[c].proxies|
  {
    var l := s.chans[c].lock;
    l.HeldBy? && l.thread < |s.threads| && s.threads[l.thread] == Leaving(s.chans[c].proxies[k], UUnlink(c, k))
  }

  predicate EntryOk(s: State, c: nat, k: nat)
    requires c < |s.chans| && k < |s.chans[c].proxies|
  {
    var p := s.chans[c].proxies[k];
    && p < |s.subs| && s.subs[p].chan == c
    && (s.subs[p].life.Linked? || (s.subs[p].life.Freed? && UnlinkingAt(s, c, k)))
  }

  ghost predicate Entries(s: State) {
    forall c, k :: 0 <= c < |s.chans| && 0 <= k < |s.chans[c].proxies| ==> EntryOk(s, c, k)
  }

  ghost predicate Distinct(list: seq<nat>) {
    forall j, k :: 0 <= j < k < |list| ==> list[j] != list[k]
  }

  ghost predicate ListsDistinct(s: State) {
    forall c :: 0 <= c < |s.chans| ==> Distinct(s.chans[c].proxies)
  }

  ghost predicate LinkedListed(s: State) {
    forall p :: 0 <= p < |s.subs| && s.subs[p].life.Linked? ==> Listed(s, p)
  }

  /** A subscription's proxy is in the list of the channel of its name. */
  predicate Listed(s: State, p: nat)
    requires p < |s.subs|
  {
    && s.subs[p].chan < |s.chans| && s.chans[s.subs[p].chan].name == s.subs[p].name
    && p in s.chans[s.subs[p].chan].proxies
  }

  /** The thread calling on subscription `p`. */
  predicate UsedBy(s: State, p: nat, subscribing: bool)
    requires p < |s.subs|
  {
    var u := s.subs[p].user;
    && u.HeldBy? && u.thread < |s.threads|
    && var th := s.threads[u.thread];
    && Using(th) == Some(p)
    && if subscribing then th.Subscribing? else th.Leaving? && !th.u.UTest?
  }

  predicate HandleOk(s: State, p: nat)
    requires p < |s.subs|
  {
    var sub := s.subs[p];
    && sub.frees == (if sub.life.Freed? then 1 else 0)
    && (sub.life.Freed? ==> !sub.active)
    && (sub.life.Private? ==> sub.handle.NotReturned? && sub.inbox == [] && sub.taken == [])
    && (sub.handle.NotReturned? ==> UsedBy(s, p, true))
    && (sub.handle.Active? && !(sub.life.Linked? && sub.active) ==> s.down || UsedBy(s, p, false))
    && (sub.handle.Inactive? || sub.handle.Released? ==> sub.life.Freed?)
  }

  ghost predicate Handles(s: State) {
    forall p :: 0 <= p < |s.subs| ==> HandleOk(s, p)
  }

  ghost predicate Structure(s: State) {
    && Locks(s) && TableUnique(s) && Lookups(s)
    && Calls(s) && Standings(s) && Entries(s) && ListsDistinct(s) && LinkedListed(s) && Handles(s)
  }

  // ---------------------------------------------------------------- lists of numbers

  lemma WithoutDistinct(list: seq<nat>, i: nat)
    requires i < |list| && Distinct(list)
    ensures Distinct(Without(list, i)) && list[i] !in Without(list, i)
  {
    forall j, k | 0 <= j < k < |list| - 1 ensures Without(list, i)[j] != Without(list, i)[k] {
      var j' := if j < i then j else j + 1;
      var k' := if k < i then k else k + 1;
      assert list[j'] != list[k'];
    }
  }

  lemma WithoutKeeps(list: seq<nat>, i: nat, p: nat)
    requires i < |list| && p in list && list[i] != p
    ensures p in Without(list, i)
  {
    var j :| 0 <= j < |list| && list[j] == p;
    assert Without(list, i)[if j < i then j else j - 1] == p;
  }

  // ---------------------------------------------------------------- positions of other threads

  lemma CallStateStable(s: State, s': State, t: nat, u: nat)
    requires u < |s.threads| && u != t && Users(s) && CallState(s, s.threads[u])
    requires Frame(s, s', t) && SubMoves(s, s', t)
    ensures CallState(s', s'.threads[u])
  {
    WokenHoldsTheSame(s.threads[u], s'.threads[u]);
    if Using(s.threads[u]).Some? {
      assert Using(s.threads[t]) != Using(s.threads[u]);
    }
  }

  lemma StandingStable(s: State, s': State, t: nat, u: nat)
    requires u < |s.threads| && u != t && t < |s.threads| && ChanLocks(s) && Users(s)
    requires Standing(s, s.threads[u]) && LookedUp(s, s.threads[u]) && HeldsMatch(s, t)
    requires Frame(s, s', t) && ChanMoves(s, s', t) && SubMoves(s, s', t)
    ensures Standing(s', s'.threads[u])
  {
    var th := s.threads[u];
    WokenHoldsTheSame(th, s'.threads[u]);
    if HeldChan(th).Some? {
      HeldListStable(s, s', t, u);
    }
    if Using(th).Some? {
      UsedChanStable(s, s', t, u);
    }
    StandingSame(s, s', th, s'.threads[u]);
  }

  lemma UsedChanStable(s: State, s': State, t: nat, u: nat)
    requires u < |s.threads| && u != t && t < |s.threads| && Users(s) && Using(s.threads[u]).Some?
    requires Frame(s, s', t) && SubMoves(s, s', t)
    ensures s.threads[u].p < |s.subs| == |s'.subs| && s'.subs[s.threads[u].p].chan == s.subs[s.threads[u].p].chan
  {
    assert Using(s.threads[t]) != Using(s.threads[u]);
  }

  /** Standing depends on the list of the channel held and the home of the subscription used, and on nothing else. */
  lemma StandingSame(s: State, s': State, th: Thread, th': Thread)
    requires Standing(s, th) && ThreadAfter(th, th') && |s.chans| <= |s'.chans|
    requires HeldChan(th).Some? ==>
      HeldChan(th).value < |s.chans| && s'.chans[HeldChan(th).value].proxies == s.chans[HeldChan(th).value].proxies
    requires Using(th).Some? ==> th.p < |s.subs| && th.p < |s'.subs| && s'.subs[th.p].chan == s.subs[th.p].chan
    ensures Standing(s', th')
  {
  }

  /** Nobody else changes the list of a channel whose mutex a thread holds. */
  lemma HeldListStable(s: State, s': State, t: nat, u: nat)
    requires u < |s.threads| && u != t && t < |s.threads| && ChanLocks(s) && HeldsMatch(s, t)
    requires HeldChan(s.threads[u]).Some? && HeldChan(s.threads[u]).value < |s.chans|
    requires Frame(s, s', t) && ChanMoves(s, s', t)
    ensures s'.chans[HeldChan(s.threads[u]).value].proxies == s.chans[HeldChan(s.threads[u]).value].proxies
  {
    assert HeldChan(s.threads[t]) != HeldChan(s.threads[u]);
  }

  /** A thread that changes a proxy list holds that channel's mutex. */
  predicate HeldsMatch(s: State, t: nat)
    requires t < |s.threads|
  {
    var th := s.threads[t];
    && (th.Subscribing? && th.s.SInsert? ==> HeldChan(th) == Some(th.s.c))
    && (th.Leaving? && th.u.UUnlink? ==> HeldChan(th) == Some(th.u.c))
  }

  // ---------------------------------------------------------------- the stepping thread's own position

  lemma WorkerOwn(s: State, t: nat)
    requires CanGo(s, t) && s.threads[t].Worker? && Standing(s, s.threads[t])
    ensures CallState(GoStep(s, t), GoStep(s, t).threads[t]) && Standing(GoStep(s, t), GoStep(s, t).threads[t])
  {
    assert GoStep(s, t).threads[t] == Worker(WorkerNext(s, s.threads[t].w));
  }

  lemma SubscriberOwn(s: State, t: nat)
    requires CanGo(s, t) && s.threads[t].Subscribing? && CallState(s, s.threads[t])
    ensures CallState(GoStep(s, t), GoStep(s, t).threads[t]) && Standing(GoStep(s, t), GoStep(s, t).threads[t])
  {
    assert GoStep(s, t).threads[t] == SubNext(s, s.threads[t].p, s.threads[t].s);
  }

  lemma ReceiverOwn(s: State, t: nat)
    requires CanGo(s, t) && s.threads[t].Receiving? && CallState(s, s.threads[t]) && Users(s) && Handles(s)
    ensures CallState(GoStep(s, t), GoStep(s, t).threads[t]) && Standing(GoStep(s, t), GoStep(s, t).threads[t])
  {
    assert GoStep(s, t).threads[t] == RecvNext(s.subs[s.threads[t].p], s.threads[t].p, s.threads[t].r);
    assert HandleOk(s, s.threads[t].p);
    assert s.subs[s.threads[t].p].user == HeldBy(t);
  }

  /** The search of unsubscribe finds its proxy, so the paths that miss it are never taken. */
  lemma LeaverFinds(s: State, t: nat)
    requires CanGo(s, t) && s.threads[t].Leaving?
    requires CallState(s, s.threads[t]) && Standing(s, s.threads[t]) && TableUnique(s) && LinkedListed(s)
    ensures s.threads[t].u.ULookup? ==>
              Get(s.table, s.subs[s.threads[t].p].name) == Some(s.subs[s.threads[t].p].chan)
    ensures s.threads[t].u.UAt? ==> s.threads[t].u.i < |s.chans[s.threads[t].u.c].proxies|
  {
  }

  lemma LeaverOwn(s: State, t: nat)
    requires CanGo(s, t) && s.threads[t].Leaving? && Users(s) && Handles(s)
    requires CallState(s, s.threads[t]) && Standing(s, s.threads[t]) && TableUnique(s) && LinkedListed(s)
    ensures CallState(GoStep(s, t), GoStep(s, t).threads[t]) && Standing(GoStep(s, t), GoStep(s, t).threads[t])
  {
    LeaverFinds(s, t);
    assert HandleOk(s, s.threads[t].p);
    assert s.subs[s.threads[t].p].user == HeldBy(t);
    LeaverCall(s, t);
    LeaverStands(s, t);
  }

  lemma LeaverCall(s: State, t: nat)
    requires CanGo(s, t) && s.threads[t].Leaving? && CallState(s, s.threads[t])
    requires s.threads[t].p < |s.subs| && HandleOk(s, s.threads[t].p) && s.subs[s.threads[t].p].user == HeldBy(t)
    requires s.threads[t].u.ULookup? ==> Get(s.table, s.subs[s.threads[t].p].name).Some?
    requires s.threads[t].u.UAt? ==> s.threads[t].u.i < |s.chans[s.threads[t].u.c].proxies|
    ensures CallState(GoStep(s, t), GoStep(s, t).threads[t])
  {
    assert GoStep(s, t).threads[t] == UnsubNext(s, s.threads[t].p, s.threads[t].u);
  }

  lemma LeaverStands(s: State, t: nat)
    requires CanGo(s, t) && s.threads[t].Leaving? && Standing(s, s.threads[t])
    requires s.threads[t].u.ULookup? ==>
      s.subs[s.threads[t].p].chan < |s.chans| && Get(s.table, s.subs[s.threads[t].p].name) == Some(s.subs[s.threads[t].p].chan)
    ensures Standing(GoStep(s, t), GoStep(s, t).threads[t])
  {
    assert GoStep(s, t).threads[t] == UnsubNext(s, s.threads[t].p, s.threads[t].u);
  }

  lemma OwnPosition(s: State, t: nat)
    requires Structure(s) && CanGo(s, t)
    ensures CallState(GoStep(s, t), GoStep(s, t).threads[t]) && Standing(GoStep(s, t), GoStep(s, t).threads[t])
  {
    match s.threads[t]
    case Worker(_) => WorkerOwn(s, t);
    case Subscribing(_, _) => SubscriberOwn(s, t);
    case Receiving(_, _) => ReceiverOwn(s, t);
    case Leaving(_, _) => LeaverOwn(s, t);
    case _ =>
  }

  lemma PositionsKept(s: State, t: nat)
    requires Structure(s) && CanGo(s, t)
    ensures Calls(GoStep(s, t)) && Standings(GoStep(s, t))
  {
    var s' := GoStep(s, t);
    GoEffect(s, t);
    OwnPosition(s, t);
    forall u | 0 <= u < |s'.threads| && u != t ensures CallState(s', s'.threads[u]) && Standing(s', s'.threads[u]) {
      CallStateStable(s, s', t, u);
      StandingStable(s, s', t, u);
    }
  }

  // ---------------------------------------------------------------- lists

  lemma FreeThenUnlink(s: State, t: nat)
    requires CanGo(s, t) && s.threads[t].Leaving? && s.threads[t].u.UFree?
    ensures GoStep(s, t).threads[t] == Leaving(s.threads[t].p, UUnlink(s.threads[t].u.c, s.threads[t].u.i))
  {
  }

  /** Only the holder's own step ends an unlinking in progress. */
  lemma UnlinkingStays(s: State, s': State, t: nat, c: nat, k: nat)
    requires c < |s.chans| && k < |s.chans[c].proxies| && ChanLocks(s) && UnlinkingAt(s, c, k)
    requires Frame(s, s', t) && ChanMoves(s, s', t) && s.chans[c].lock != HeldBy(t)
    requires s'.chans[c].proxies == s.chans[c].proxies
    ensures UnlinkingAt(s', c, k)
  {
    var l := s.chans[c].lock.thread;
    assert HeldChan(s.threads[l]) == Some(c);
    assert HeldChan(s.threads[t]) != Some(c);
  }

  lemma EntryAfterUnlink(s: State, t: nat, c: nat, k: nat)
    requires Structure(s) && CanGo(s, t) && s.threads[t].Leaving? && s.threads[t].u.UUnlink? && s.threads[t].u.c == c
    requires c < |GoStep(s, t).chans| && k < |GoStep(s, t).chans[c].proxies|
    ensures EntryOk(GoStep(s, t), c, k)
  {
    var th := s.threads[t];
    var k0 := if k < th.u.i then k else k + 1;
    UnlinkShifts(s, t, k);
    assert EntryOk(s, c, k0) && CallState(s, th);
    assert HeldChan(th) == Some(c);
    assert s.subs[s.chans[c].proxies[k0]].life.Linked?;
  }

  /** What unlinking entry `i` does: the entries after it move up, and no subscription changes but its own. */
  lemma UnlinkShifts(s: State, t: nat, k: nat)
    requires CanGo(s, t) && s.threads[t].Leaving? && s.threads[t].u.UUnlink? && s.threads[t].u.c < |s.chans|
    requires
      var c := s.threads[t].u.c;
      c < |GoStep(s, t).chans| && k < |GoStep(s, t).chans[c].proxies| && s.threads[t].u.i < |s.chans[c].proxies|
    ensures
      var s' := GoStep(s, t);
      var c, i := s.threads[t].u.c, s.threads[t].u.i;
      var k0 := if k < i then k else k + 1;
      && k0 < |s.chans[c].proxies| && s'.chans[c].proxies[k] == s.chans[c].proxies[k0] && |s'.subs| == |s.subs|
      && forall p :: 0 <= p < |s.subs| ==> s'.subs[p].chan == s.subs[p].chan && s'.subs[p].life == s.subs[p].life
  {
  }

  lemma EntryInserted(s: State, t: nat, c: nat, k: nat)
    requires Structure(s) && CanGo(s, t) && s.threads[t].Subscribing? && s.threads[t].s == SInsert(c)
    requires c < |s.chans| && k == |s.chans[c].proxies| && k < |GoStep(s, t).chans[c].proxies|
    ensures EntryOk(GoStep(s, t), c, k)
  {
  }

  lemma EntryAfter(s: State, t: nat, c: nat, k: nat)
    requires Structure(s) && CanGo(s, t)
    requires c < |GoStep(s, t).chans| && k < |GoStep(s, t).chans[c].proxies|
    ensures EntryOk(GoStep(s, t), c, k)
  {
    var th := s.threads[t];
    assert Frame(s, GoStep(s, t), t) && ChanMoves(s, GoStep(s, t), t) by { GoEffect(s, t); }
    if th.Leaving? && th.u.UUnlink? && th.u.c == c {
      EntryAfterUnlink(s, t, c, k);
    } else if k < |s.chans[c].proxies| {
      assert EntryOk(s, c, k);
      EntryUntouched(s, t, c, k);
    } else {
      EntryInserted(s, t, c, k);
    }
  }

  /** A proxy being freed is at the entry its unsubscribe will unlink. */
  lemma EntryFreed(s: State, t: nat, c: nat, k: nat)
    requires Structure(s) && CanGo(s, t) && c < |s.chans| && k < |s.chans[c].proxies| && EntryOk(s, c, k)
    requires s.threads[t].Leaving? && s.threads[t].u.UFree? && s.threads[t].p == s.chans[c].proxies[k]
    ensures EntryOk(GoStep(s, t), c, k)
  {
    var th := s.threads[t];
    assert CallState(s, th) && Standing(s, th);
    FreeThenUnlink(s, t);
    assert HeldChan(th) == Some(c) && s.chans[c].lock == HeldBy(t);
    assert Distinct(s.chans[c].proxies);
    assert th.u.i == k;
    assert GoStep(s, t).chans == s.chans;
  }

  lemma EntryUntouched(s: State, t: nat, c: nat, k: nat)
    requires Structure(s) && CanGo(s, t) && c < |s.chans| && k < |s.chans[c].proxies|
    requires !(s.threads[t].Leaving? && s.threads[t].u.UUnlink? && s.threads[t].u.c == c)
    requires EntryOk(s, c, k) && c < |GoStep(s, t).chans| && k < |GoStep(s, t).chans[c].proxies|
    ensures EntryOk(GoStep(s, t), c, k)
  {
    var th := s.threads[t];
    var p := s.chans[c].proxies[k];
    if th.Leaving? && th.u.UFree? && th.p == p {
      EntryFreed(s, t, c, k);
    } else {
      GoEffect(s, t);
      EntryOfOther(s, GoStep(s, t), t, c, k);
    }
  }

  lemma EntrySubject(s: State, s': State, t: nat, p: nat)
    requires Effect(s, s', t) && CallState(s, s.threads[t]) && p < |s.subs| && !s.subs[p].life.Private?
    requires !(s.threads[t].Leaving? && s.threads[t].u.UFree? && s.threads[t].p == p)
    ensures p < |s'.subs| && s'.subs[p].chan == s.subs[p].chan && s'.subs[p].life == s.subs[p].life
  {
  }

  lemma EntryOfOther(s: State, s': State, t: nat, c: nat, k: nat)
    requires Structure(s) && Effect(s, s', t) && c < |s.chans| && k < |s.chans[c].proxies|
    requires !(s.threads[t].Leaving? && s.threads[t].u.UUnlink? && s.threads[t].u.c == c)
    requires !(s.threads[t].Leaving? && s.threads[t].u.UFree? && s.threads[t].p == s.chans[c].proxies[k])
    requires EntryOk(s, c, k)
    ensures EntryOk(s', c, k)
  {
    assert CallState(s, s.threads[t]);
    EntryStays(s, s', t, c, k);
    EntrySubject(s, s', t, s.chans[c].proxies[k]);
    if s.subs[s.chans[c].proxies[k]].life.Freed? {
      FreedEntryStays(s, s', t, c, k);
    }
  }

  lemma EntryStays(s: State, s': State, t: nat, c: nat, k: nat)
    requires Frame(s, s', t) && ChanMoves(s, s', t) && c < |s.chans| && k < |s.chans[c].proxies|
    requires !(s.threads[t].Leaving? && s.threads[t].u.UUnlink? && s.threads[t].u.c == c)
    ensures c < |s'.chans| && k < |s'.chans[c].proxies| && s'.chans[c].proxies[k] == s.chans[c].proxies[k]
  {
  }

  /** Whoever is about to unlink a freed entry still is: nobody else holds the channel. */
  lemma FreedEntryStays(s: State, s': State, t: nat, c: nat, k: nat)
    requires Structure(s) && Effect(s, s', t) && c < |s.chans| && k < |s.chans[c].proxies|
    requires !(s.threads[t].Leaving? && s.threads[t].u.UUnlink? && s.threads[t].u.c == c)
    requires EntryOk(s, c, k) && s.subs[s.chans[c].proxies[k]].life.Freed?
    ensures k < |s'.chans[c].proxies| && UnlinkingAt(s', c, k)
  {
    var th := s.threads[t];
    EntryStays(s, s', t, c, k);
    assert HeldChan(s.threads[s.chans[c].lock.thread]) == Some(c);
    assert !(th.Subscribing? && th.s.SInsert? && th.s.c == c);
    UnlinkingStays(s, s', t, c, k);
  }

  lemma EntriesKept(s: State, t: nat)
    requires Structure(s) && CanGo(s, t)
    ensures Entries(GoStep(s, t))
  {
    forall c, k | 0 <= c < |GoStep(s, t).chans| && 0 <= k < |GoStep(s, t).chans[c].proxies|
      ensures EntryOk(GoStep(s, t), c, k)
    {
      EntryAfter(s, t, c, k);
    }
  }

  lemma ListsDistinctKept(s: State, s': State, t: nat)
    requires Structure(s) && Frame(s, s', t) && ChanMoves(s, s', t)
    ensures ListsDistinct(s')
  {
    assert CallState(s, s.threads[t]);
    NewcomerUnlisted(s, t);
    ListsDistinctMoved(s, s', t);
  }

  /** A proxy about to be linked is on no list. */
  lemma NewcomerUnlisted(s: State, t: nat)
    requires Entries(s) && t < |s.threads| && CallState(s, s.threads[t])
    ensures Unlisted(s, t)
  {
    var th := s.threads[t];
    if th.Subscribing? && th.s.SInsert? && th.s.c < |s.chans| {
      forall k | 0 <= k < |s.chans[th.s.c].proxies| ensures s.chans[th.s.c].proxies[k] != th.p {
        assert EntryOk(s, th.s.c, k);
      }
    }
  }

  ghost predicate Unlisted(s: State, t: nat)
    requires t < |s.threads|
  {
    var th := s.threads[t];
    th.Subscribing? && th.s.SInsert? && th.s.c < |s.chans| ==>
      forall k :: 0 <= k < |s.chans[th.s.c].proxies| ==> s.chans[th.s.c].proxies[k] != th.p
  }

  lemma ListsDistinctMoved(s: State, s': State, t: nat)
    requires ListsDistinct(s) && Frame(s, s', t) && ChanMoves(s, s', t) && Unlisted(s, t)
    ensures ListsDistinct(s')
  {
    forall c | 0 <= c < |s'.chans| ensures Distinct(s'.chans[c].proxies) {
      if c < |s.chans| {
        ListDistinctAfter(s.threads[t], c, s.chans[c]);
      }
    }
  }

  lemma ListDistinctAfter(th: Thread, c: nat, ch: Chan)
    requires Distinct(ch.proxies)
    requires th.Subscribing? && th.s.SInsert? && th.s.c == c ==> forall k :: 0 <= k < |ch.proxies| ==> ch.proxies[k] != th.p
    ensures Distinct(ListAfter(th, c, ch))
  {
    if th.Leaving? && th.u.UUnlink? && th.u.c == c && th.u.i < |ch.proxies| {
      WithoutDistinct(ch.proxies, th.u.i);
    }
  }

  lemma ListedAfterInsert(s: State, s': State, t: nat)
    requires Structure(s) && Effect(s, s', t) && s.threads[t].Subscribing? && s.threads[t].s.SInsert?
    ensures Listed(s', s.threads[t].p)
  {
    var th := s.threads[t];
    assert LookedUp(s, th);
    assert s'.chans[th.s.c].proxies[|s.chans[th.s.c].proxies|] == th.p;
  }

  lemma ListedStays(s: State, s': State, t: nat, p: nat)
    requires Structure(s) && Effect(s, s', t) && p < |s.subs| && s.subs[p].life.Linked? && Listed(s, p)
    ensures Listed(s', p)
  {
    var th := s.threads[t];
    var c := s.subs[p].chan;
    ListedHome(s, s', t, p);
    if th.Leaving? && th.u.UUnlink? && th.u.c == c {
      assert CallState(s, th) && Standing(s, th);
      WithoutKeeps(s.chans[c].proxies, th.u.i, p);
    } else {
      assert forall q :: q in s.chans[c].proxies ==> q in s'.chans[c].proxies;
    }
  }

  lemma ListedHome(s: State, s': State, t: nat, p: nat)
    requires Structure(s) && Effect(s, s', t) && p < |s.subs| && s.subs[p].life.Linked? && Listed(s, p)
    ensures s'.subs[p].chan == s.subs[p].chan && s'.subs[p].name == s.subs[p].name
    ensures s'.chans[s.subs[p].chan].name == s.chans[s.subs[p].chan].name
  {
    assert CallState(s, s.threads[t]);
  }

  lemma LinkedListedKept(s: State, s': State, t: nat)
    requires Structure(s) && Effect(s, s', t)
    ensures LinkedListed(s')
  {
    var th := s.threads[t];
    forall p | 0 <= p < |s'.subs| && s'.subs[p].life.Linked? ensures Listed(s', p) {
      if th.Subscribing? && th.s.SInsert? && th.p == p {
        ListedAfterInsert(s, s', t);
      } else {
        assert Listed(s, p);
        ListedStays(s, s', t, p);
      }
    }
  }

  // ---------------------------------------------------------------- handles

  lemma HandleOfOther(s: State, s': State, t: nat, p: nat)
    requires p < |s.subs| && HandleOk(s, p) && Users(s) && Handles(s) && Entries(s)
    requires Effect(s, s', t) && Using(s.threads[t]) != Some(p)
    ensures HandleOk(s', p)
  {
    var u := s.subs[p].user;
    if u.HeldBy? {
      assert Using(s.threads[u.thread]) == Some(p);
      assert ThreadAfter(s.threads[u.thread], s'.threads[u.thread]);
    }
    if PushesTo(s, s.threads[t], p) {
      assert EntryOk(s, s.threads[t].w.c, s.threads[t].w.i);
    }
  }

  lemma SubscriberHandle(s: State, t: nat)
    requires Structure(s) && CanGo(s, t) && s.threads[t].Subscribing?
    ensures HandleOk(GoStep(s, t), s.threads[t].p)
  {
    assert CallState(s, s.threads[t]) && HandleOk(s, s.threads[t].p);
    assert s.subs[s.threads[t].p].user == HeldBy(t);
    assert GoStep(s, t).threads[t] == SubNext(s, s.threads[t].p, s.threads[t].s);
  }

  lemma ReceiverHandle(s: State, t: nat)
    requires Structure(s) && CanGo(s, t) && s.threads[t].Receiving?
    ensures HandleOk(GoStep(s, t), s.threads[t].p)
  {
    assert CallState(s, s.threads[t]) && HandleOk(s, s.threads[t].p);
    assert s.subs[s.threads[t].p].user == HeldBy(t);
  }

  lemma LeaverHandle(s: State, t: nat)
    requires Structure(s) && CanGo(s, t) && s.threads[t].Leaving?
    ensures HandleOk(GoStep(s, t), s.threads[t].p)
  {
    assert CallState(s, s.threads[t]) && HandleOk(s, s.threads[t].p);
    assert s.subs[s.threads[t].p].user == HeldBy(t);
    LeaverHandleMoves(s, t);
  }

  lemma LeaverHandleMoves(s: State, t: nat)
    requires CanGo(s, t) && s.threads[t].Leaving? && CallState(s, s.threads[t])
    requires s.threads[t].p < |s.subs| && HandleOk(s, s.threads[t].p) && s.subs[s.threads[t].p].user == HeldBy(t)
    ensures s.threads[t].p < |GoStep(s, t).subs| && HandleOk(GoStep(s, t), s.threads[t].p)
  {
    assert GoStep(s, t).threads[t] == UnsubNext(s, s.threads[t].p, s.threads[t].u);
  }

  lemma HandlesKept(s: State, t: nat)
    requires Structure(s) && CanGo(s, t)
    ensures Handles(GoStep(s, t))
  {
    var s' := GoStep(s, t);
    GoEffect(s, t);
    forall p | 0 <= p < |s'.subs| ensures HandleOk(s', p) {
      assert HandleOk(s, p);
      if Using(s.threads[t]) == Some(p) {
        match s.threads[t]
        case Subscribing(_, _) => SubscriberHandle(s, t);
        case Receiving(_, _) => ReceiverHandle(s, t);
        case Leaving(_, _) => LeaverHandle(s, t);
      } else {
        HandleOfOther(s, s', t, p);
      }
    }
  }

  lemma GoKeepsStructure(s: State, t: nat)
    requires Structure(s) && CanGo(s, t)
    ensures Structure(GoStep(s, t))
  {
    var s' := GoStep(s, t);
    GoEffect(s, t);
    AllLockKept(s, s', t);
    ChanLocksKept(s, s', t);
    InboxLocksKept(s, s', t);
    UsersKept(s, s', t);
    TableUniqueKept(s, s', t);
    LookupsKept(s, t);
    PositionsKept(s, t);
    EntriesKept(s, t);
    ListsDistinctKept(s, s', t);
    LinkedListedKept(s, s', t);
    HandlesKept(s, t);
  }

  // ---------------------------------------------------------------- calls that begin, spurious wake-ups, teardown

  /** Nothing a position says depends on more than the fields compared here. */
  ghost predicate SameView(s: State, s': State) {
    && s'.table == s.table && s'.chans == s.chans && |s.subs| <= |s'.subs| && s'.down == s.down
    && forall p :: 0 <= p < |s.subs| ==>
         && s'.subs[p].name == s.subs[p].name && s'.subs[p].chan == s.subs[p].chan && s'.subs[p].life == s.subs[p].life
         && s'.subs[p].active == s.subs[p].active && s'.subs[p].handle == s.subs[p].handle
         && s'.subs[p].frees == s.subs[p].frees && s'.subs[p].inbox == s.subs[p].inbox
         && s'.subs[p].taken == s.subs[p].taken && s'.subs[p].lock == s.subs[p].lock
  }

  lemma PositionInSameView(s: State, s': State, th: Thread)
    requires SameView(s, s') && LookedUp(s, th) && CallState(s, th) && Standing(s, th)
    requires Using(th).Some? ==> th.p < |s.subs|
    ensures LookedUp(s', th) && CallState(s', th) && Standing(s', th)
  {
    assert Using(th).Some? ==> Subject(s', th) == Subject(s, th);
  }

  lemma ListsInSameView(s: State, s': State, t: nat)
    requires SameView(s, s') && Entries(s) && LinkedListed(s) && ChanLocks(s)
    requires t < |s.threads| == |s'.threads| && HeldChan(s.threads[t]).None?
    requires forall u :: 0 <= u < |s.threads| && u != t ==> s'.threads[u] == s.threads[u]
    requires forall p :: |s.subs| <= p < |s'.subs| ==> s'.subs[p].life.Private?
    ensures Entries(s') && LinkedListed(s')
  {
    forall c, k | 0 <= c < |s'.chans| && 0 <= k < |s'.chans[c].proxies| ensures EntryOk(s', c, k) {
      assert EntryOk(s, c, k);
    }
    forall p | 0 <= p < |s'.subs| && s'.subs[p].life.Linked? ensures Listed(s', p) {
      assert Listed(s, p);
    }
  }

  /** Thread `t`, which held nothing, still holds nothing. */
  ghost predicate HoldsNothingNew(s: State, s': State, t: nat) {
    && t < |s.threads| == |s'.threads|
    && (forall u :: 0 <= u < |s.threads| && u != t ==> s'.threads[u] == s.threads[u])
    && !HoldsAll(s.threads[t]) && HeldChan(s.threads[t]).None? && HeldInbox(s.threads[t]).None?
    && !HoldsAll(s'.threads[t]) && HeldChan(s'.threads[t]).None? && HeldInbox(s'.threads[t]).None?
    && s'.all == s.all && s'.chans == s.chans && |s.subs| <= |s'.subs|
    && (forall p :: 0 <= p < |s.subs| ==> s'.subs[p].lock == s.subs[p].lock)
    && (forall p :: |s.subs| <= p < |s'.subs| ==> s'.subs[p].lock.Unlocked?)
  }

  lemma MutexesUntouched(s: State, s': State, t: nat)
    requires AllLock(s) && ChanLocks(s) && HoldsNothingNew(s, s', t)
    ensures AllLock(s') && ChanLocks(s')
  {
  }

  lemma InboxesUntouched(s: State, s': State, t: nat)
    requires InboxLocks(s) && HoldsNothingNew(s, s', t)
    ensures InboxLocks(s')
  {
  }

  /** Thread `t` becomes the user of `p`, which had none. */
  lemma UserGained(s: State, s': State, t: nat, p: nat)
    requires Users(s) && t < |s.threads| == |s'.threads| && Using(s.threads[t]).None? && Using(s'.threads[t]) == Some(p)
    requires forall u :: 0 <= u < |s.threads| && u != t ==> s'.threads[u] == s.threads[u]
    requires p < |s'.subs| && |s.subs| <= |s'.subs| <= |s.subs| + 1 && (p < |s.subs| ==> s.subs[p].user.Unlocked?)
    requires |s'.subs| == |s.subs| + 1 ==> p == |s.subs|
    requires s'.subs[p].user == HeldBy(t)
    requires forall q :: 0 <= q < |s.subs| && q != p ==> s'.subs[q].user == s.subs[q].user
    ensures Users(s')
  {
  }

  lemma EnterLocks(s: State, t: nat, p: nat, pc: Thread, releasing: bool)
    requires Locks(s) && t < |s.threads| && Callable(s, p) && (s.threads[t].Idle? || s.threads[t].Done?)
    requires pc == Receiving(p, RTest) || pc == Receiving(p, TTest) || pc == Leaving(p, UTest)
    ensures Locks(Enter(s, t, p, pc, releasing))
  {
    var s' := Enter(s, t, p, pc, releasing);
    EnterHoldsNothing(s, t, p, pc, releasing);
    MutexesUntouched(s, s', t);
    InboxesUntouched(s, s', t);
    UserGained(s, s', t, p);
  }

  lemma EnterHoldsNothing(s: State, t: nat, p: nat, pc: Thread, releasing: bool)
    requires t < |s.threads| && Callable(s, p) && (s.threads[t].Idle? || s.threads[t].Done?)
    requires pc == Receiving(p, RTest) || pc == Receiving(p, TTest) || pc == Leaving(p, UTest)
    ensures HoldsNothingNew(s, Enter(s, t, p, pc, releasing), t)
  {
  }

  lemma EnterHandles(s: State, t: nat, p: nat, pc: Thread, releasing: bool)
    requires Users(s) && Handles(s) && t < |s.threads| && Callable(s, p) && (s.threads[t].Idle? || s.threads[t].Done?)
    ensures Handles(Enter(s, t, p, pc, releasing))
  {
    var s' := Enter(s, t, p, pc, releasing);
    forall q | 0 <= q < |s'.subs| ensures HandleOk(s', q) {
      assert HandleOk(s, q);
    }
  }

  lemma EnterKeepsStructure(s: State, t: nat, p: nat, pc: Thread, releasing: bool)
    requires Structure(s) && t < |s.threads| && Callable(s, p) && (s.threads[t].Idle? || s.threads[t].Done?)
    requires pc == Receiving(p, RTest) || pc == Receiving(p, TTest) || pc == Leaving(p, UTest)
    ensures Structure(Enter(s, t, p, pc, releasing))
  {
    var s' := Enter(s, t, p, pc, releasing);
    EnterLocks(s, t, p, pc, releasing);
    EnterHandles(s, t, p, pc, releasing);
    ListsInSameView(s, s', t);
    forall u | 0 <= u < |s.threads|
      ensures LookedUp(s', s'.threads[u]) && CallState(s', s'.threads[u]) && Standing(s', s'.threads[u])
    {
      EnterPosition(s, t, p, pc, releasing, u);
    }
  }

  lemma EnterPosition(s: State, t: nat, p: nat, pc: Thread, releasing: bool, u: nat)
    requires Structure(s) && t < |s.threads| && Callable(s, p) && (s.threads[t].Idle? || s.threads[t].Done?)
    requires pc == Receiving(p, RTest) || pc == Receiving(p, TTest) || pc == Leaving(p, UTest)
    requires u < |s.threads|
    ensures
      var s' := Enter(s, t, p, pc, releasing);
      LookedUp(s', s'.threads[u]) && CallState(s', s'.threads[u]) && Standing(s', s'.threads[u])
  {
    var s' := Enter(s, t, p, pc, releasing);
    PositionInSameView(s, s', s'.threads[u]);
  }

  lemma PublishHandles(s: State, t: nat, op: Op)
    requires Users(s) && Handles(s) && CanBegin(s, t, op) && op.Publish?
    ensures Users(BeginStep(s, t, op)) && Handles(BeginStep(s, t, op))
  {
    forall q | 0 <= q < |s.subs| ensures HandleOk(BeginStep(s, t, op), q) {
      assert HandleOk(s, q);
    }
  }

  lemma PublishKeepsStructure(s: State, t: nat, op: Op)
    requires Structure(s) && CanBegin(s, t, op) && op.Publish?
    ensures Structure(BeginStep(s, t, op))
  {
    var s' := BeginStep(s, t, op);
    MutexesUntouched(s, s', t);
    InboxesUntouched(s, s', t);
    ListsInSameView(s, s', t);
    forall u | 0 <= u < |s.threads|
      ensures LookedUp(s', s'.threads[u]) && CallState(s', s'.threads[u]) && Standing(s', s'.threads[u])
    {
      PositionInSameView(s, s', s'.threads[u]);
    }
    PublishHandles(s, t, op);
  }

  lemma SubscribeLocks(s: State, t: nat, op: Op)
    requires Locks(s) && CanBegin(s, t, op) && op.Subscribe?
    ensures Locks(BeginStep(s, t, op))
  {
    var s' := BeginStep(s, t, op);
    MutexesUntouched(s, s', t);
    InboxesUntouched(s, s', t);
    UserGained(s, s', t, |s.subs|);
  }

  lemma SubscribeKeepsStructure(s: State, t: nat, op: Op)
    requires Structure(s) && CanBegin(s, t, op) && op.Subscribe?
    ensures Structure(BeginStep(s, t, op))
  {
    var s' := BeginStep(s, t, op);
    SubscribeLocks(s, t, op);
    ListsInSameView(s, s', t);
    forall u | 0 <= u < |s.threads|
      ensures LookedUp(s', s'.threads[u]) && CallState(s', s'.threads[u]) && Standing(s', s'.threads[u])
    {
      if u != t {
        PositionInSameView(s, s', s'.threads[u]);
      }
    }
    SubscribeHandles(s, t, op);
  }

  lemma SubscribeHandles(s: State, t: nat, op: Op)
    requires Handles(s) && CanBegin(s, t, op) && op.Subscribe?
    ensures Handles(BeginStep(s, t, op))
  {
    var s' := BeginStep(s, t, op);
    forall q | 0 <= q < |s'.subs| ensures HandleOk(s', q) {
      assert q < |s.subs| ==> HandleOk(s, q);
    }
  }

  lemma SpuriousLocks(s: State, t: nat)
    requires Locks(s) && Enabled(s, Spurious(t))
    ensures Locks(Apply(s, Spurious(t)))
  {
    var s' := Apply(s, Spurious(t));
    SpuriousHoldsNothing(s, t);
    MutexesUntouched(s, s', t);
    InboxesUntouched(s, s', t);
    SpuriousUsers(s, t);
  }

  lemma SpuriousHoldsNothing(s: State, t: nat)
    requires Enabled(s, Spurious(t))
    ensures HoldsNothingNew(s, Apply(s, Spurious(t)), t)
  {
  }

  lemma SpuriousUsers(s: State, t: nat)
    requires Users(s) && Enabled(s, Spurious(t))
    ensures Users(Apply(s, Spurious(t)))
  {
  }

  lemma SpuriousHandles(s: State, t: nat)
    requires Users(s) && Handles(s) && Enabled(s, Spurious(t))
    ensures Users(Apply(s, Spurious(t))) && Handles(Apply(s, Spurious(t)))
  {
    forall q | 0 <= q < |s.subs| ensures HandleOk(Apply(s, Spurious(t)), q) {
      assert HandleOk(s, q);
    }
  }

  lemma SpuriousKeepsStructure(s: State, t: nat)
    requires Structure(s) && Enabled(s, Spurious(t))
    ensures Structure(Apply(s, Spurious(t)))
  {
    var s' := Apply(s, Spurious(t));
    SpuriousLocks(s, t);
    ListsInSameView(s, s', t);
    forall u | 0 <= u < |s.threads|
      ensures LookedUp(s', s'.threads[u]) && CallState(s', s'.threads[u]) && Standing(s', s'.threads[u])
    {
      SpuriousPosition(s, t, u);
    }
    SpuriousHandles(s, t);
  }

  lemma SpuriousPosition(s: State, t: nat, u: nat)
    requires Structure(s) && Enabled(s, Spurious(t)) && u < |s.threads|
    ensures
      var s' := Apply(s, Spurious(t));
      LookedUp(s', s'.threads[u]) && CallState(s', s'.threads[u]) && Standing(s', s'.threads[u])
  {
    var s' := Apply(s, Spurious(t));
    assert CallState(s, s.threads[u]);
    PositionInSameView(s, s', s'.threads[u]);
  }

  lemma QuietHoldsNothing(th: Thread)
    requires Quiet(th)
    ensures !HoldsAll(th) && HeldChan(th).None? && HeldInbox(th).None?
    ensures Using(th).None? && FoundChan(th).None? && !Creates(th)
  {
  }

  lemma TeardownKeepsStructure(s: State)
    requires Structure(s) && Enabled(s, Teardown)
    ensures Structure(Apply(s, Teardown))
  {
    var s' := Apply(s, Teardown);
    forall u | 0 <= u < |s.threads|
      ensures !HoldsAll(s.threads[u]) && HeldChan(s.threads[u]).None? && HeldInbox(s.threads[u]).None?
      ensures Using(s.threads[u]).None? && LookedUp(s', s'.threads[u]) && CallState(s', s'.threads[u])
              && Standing(s', s'.threads[u])
    {
      assert Quiet(s.threads[u]);
      QuietHoldsNothing(s.threads[u]);
    }
    assert Locks(s') && TableUnique(s');
    forall q | 0 <= q < |s'.subs| ensures HandleOk(s', q) {
      assert HandleOk(s, q);
    }
  }

  lemma BeginKeepsStructure(s: State, t: nat, op: Op)
    requires Structure(s) && CanBegin(s, t, op)
    ensures Structure(BeginStep(s, t, op))
  {
    match op
    case Publish(_, _) => PublishKeepsStructure(s, t, op);
    case Subscribe(_) => SubscribeKeepsStructure(s, t, op);
    case Receive(p) => EnterKeepsStructure(s, t, p, Receiving(p, RTest), false);
    case TryReceive(p) => EnterKeepsStructure(s, t, p, Receiving(p, TTest), false);
    case Unsubscribe(p) => EnterKeepsStructure(s, t, p, Leaving(p, UTest), false);
    case Release(p) => EnterKeepsStructure(s, t, p, Leaving(p, UTest), true);
  }

  lemma StructureKept(s: State, step: Step)
    requires Structure(s) && Enabled(s, step)
    ensures Structure(Apply(s, step))
  {
    match step
    case Go(t) => GoKeepsStructure(s, t);
    case Spurious(t) => SpuriousKeepsStructure(s, t);
    case Teardown => TeardownKeepsStructure(s);
    case Begin(t, op) => BeginKeepsStructure(s, t, op);
  }

  lemma StructureInitially(n: nat, m: nat, serial: bool)
    ensures Structure(Init(n, m, serial))
  {
  }
}
