/**
 * Steps of the broker seen from outside a thread: what a step of thread `t` may do to each thread,
 * channel and subscription.  Invariants are proved against these pointwise effects.
 */
module BrokerSteps {
  import opened Prelude
  import opened Broker

  // ---------------------------------------------------------------- what a thread's position says

  predicate HoldsAll(th: Thread) {
    match th
    case Worker(w) => w.WLookup? || w.WCreate? || w.WUnlockAll?
    case Subscribing(_, x) => x.SLookup? || x.SCreate? || x.SUnlockAll?
    case Leaving(_, u) => UnsubHoldsAll(u)
    case _ => false
  }

  /** The channel whose mutex a thread holds. */
  function HeldChan(th: Thread): Option<nat> {
    match th
    case Worker(w) => if Walking(w) || w.WUnlockChan? then Some(w.c) else None
    case Subscribing(_, x) => if x.SInsert? || x.SUnlockChan? then Some(x.c) else None
    case Leaving(_, u) => if UnsubOnChan(u) && !u.ULockChan? then Some(u.c) else None
    case _ => None
  }

  /** The channel a thread has looked up. */
  function FoundChan(th: Thread): Option<nat> {
    match th
    case Worker(w) => if WorkerOnChan(w) then Some(w.c) else None
    case Subscribing(_, x) => if SubOnChan(x) then Some(x.c) else None
    case Leaving(_, u) => if UnsubOnChan(u) then Some(u.c) else None
    case _ => None
  }

  /** The inbox whose mutex a thread holds. */
  function HeldInbox(th: Thread): Option<nat> {
    if th.Receiving? && RecvHolds(th.r) then Some(th.p) else None
  }

  /** The subscription a thread calls on. */
  function Using(th: Thread): Option<nat> {
    if th.Subscribing? || th.Receiving? || th.Leaving? then Some(th.p) else None
  }

  predicate Creates(th: Thread) {
    (th.Worker? && th.w.WCreate?) || (th.Subscribing? && th.s.SCreate?)
  }

  predicate Asleep(th: Thread) {
    th.Receiving? && th.r.RAsleep?
  }

  /** The channel name a thread works on. */
  function Subject(s: State, th: Thread): string {
    match th
    case Worker(w) => if w.WIdle? then "" else w.m.name
    case Publishing(m) => m.name
    case Done(_, _, _) => ""
    case Idle => ""
    case _ => if th.p < |s.subs| then s.subs[th.p].name else ""
  }

  // ---------------------------------------------------------------- effects

  function LogAfter(th: Thread, c: nat, ch: Chan): seq<Msg> {
    if th.Worker? && th.w.WLockChan? && th.w.c == c then ch.log + [th.w.m] else ch.log
  }

  function ListAfter(th: Thread, c: nat, ch: Chan): seq<nat> {
    if th.Subscribing? && th.s.SInsert? && th.s.c == c then ch.proxies + [th.p]
    else if th.Leaving? && th.u.UUnlink? && th.u.c == c && th.u.i < |ch.proxies| then Without(ch.proxies, th.u.i)
    else ch.proxies
  }

  /** The subscription record that a call of thread `t` leaves behind. */
  function OwnSub(s: State, t: nat, th: Thread, sub: Sub): Sub {
    match th
    case Subscribing(_, SInsert(c)) =>
      if c < |s.chans| then sub.(life := Linked, chan := c, join := |s.chans[c].log|, born := s.nextMsg) else sub
    case Subscribing(_, SReturn) => sub.(handle := Active, user := Unlocked)
    case Receiving(p, r) => RecvSub(sub, t, p, r)
    case Leaving(_, u) => UnsubSub(sub, u)
    case _ => sub
  }

  /** Thread `th` is about to append to the inbox of subscription `p`. */
  predicate PushesTo(s: State, th: Thread, p: nat) {
    th.Worker? && th.w.WPush? && AtProxy(s, th.w) && Reached(s, th.w) == p
  }

  function SubAfter(s: State, t: nat, th: Thread, p: nat): Sub
    requires p < |s.subs|
  {
    if Using(th) == Some(p) then OwnSub(s, t, th, s.subs[p])
    else if PushesTo(s, th, p) then s.subs[p].(inbox := s.subs[p].inbox + [th.w.m])
    else s.subs[p]
  }

  /** Mutex `l` of a family whose member `before`, then `after`, is held by thread `t`. */
  predicate Moved(before: Option<nat>, after: Option<nat>, c: nat, l: Mutex, l': Mutex, t: nat) {
    if before == after then l' == l
    else if after == Some(c) then l.Unlocked? && l' == HeldBy(t)
    else if before == Some(c) then l'.Unlocked?
    else l' == l
  }

  /** A step may wake another thread's receive, and changes no other thread. */
  predicate ThreadAfter(th: Thread, th': Thread) {
    th' == th || (Asleep(th) && th' == Receiving(th.p, RWoken))
  }

  ghost predicate Frame(s: State, s': State, t: nat) {
    && t < |s.threads| == |s'.threads|
    && (forall u :: 0 <= u < |s.threads| && u != t ==> ThreadAfter(s.threads[u], s'.threads[u]))
    && s'.workers == s.workers && s'.serial == s.serial && s'.nextMsg == s.nextMsg && s'.published == s.published
    && s'.down == s.down
  }

  ghost predicate AllMoves(s: State, s': State, t: nat)
    requires Frame(s, s', t)
  {
    if HoldsAll(s.threads[t]) == HoldsAll(s'.threads[t]) then s'.all == s.all
    else if HoldsAll(s'.threads[t]) then s.all.Unlocked? && s'.all == HeldBy(t)
    else s'.all.Unlocked?
  }

  ghost predicate ChanMoves(s: State, s': State, t: nat)
    requires Frame(s, s', t)
  {
    var th := s.threads[t];
    && |s'.chans| == |s.chans| + (if Creates(th) then 1 else 0)
    && (Creates(th) ==> s'.chans[|s.chans|] == NewChan(Subject(s, th)))
    && s'.table == (if Creates(th) then Put(s.table, Subject(s, th), |s.chans|) else s.table)
    && (HeldChan(s'.threads[t]).Some? ==> HeldChan(s'.threads[t]).value < |s.chans|)
    && forall c :: 0 <= c < |s.chans| ==>
         && s'.chans[c].name == s.chans[c].name
         && s'.chans[c].log == LogAfter(th, c, s.chans[c])
         && s'.chans[c].proxies == ListAfter(th, c, s.chans[c])
         && Moved(HeldChan(th), HeldChan(s'.threads[t]), c, s.chans[c].lock, s'.chans[c].lock, t)
  }

  ghost predicate SubMoves(s: State, s': State, t: nat)
    requires Frame(s, s', t)
  {
    var th := s.threads[t];
    && |s'.subs| == |s.subs|
    && (Using(th).Some? ==> Using(th).value < |s.subs|)
    && (Using(s'.threads[t]) == None || Using(s'.threads[t]) == Using(th))
    && forall p :: 0 <= p < |s.subs| ==>
         && s'.subs[p] == SubAfter(s, t, th, p)
         && Moved(HeldInbox(th), HeldInbox(s'.threads[t]), p, s.subs[p].lock, s'.subs[p].lock, t)
         && Moved(Using(th), Using(s'.threads[t]), p, s.subs[p].user, s'.subs[p].user, t)
  }

  /** Every step of thread `t` inside a call. */
  ghost predicate Effect(s: State, s': State, t: nat) {
    Frame(s, s', t) && AllMoves(s, s', t) && ChanMoves(s, s', t) && SubMoves(s, s', t)
  }

  lemma WorkerFrame(s: State, t: nat)
    requires CanGo(s, t) && s.threads[t].Worker?
    ensures Frame(s, GoStep(s, t), t) && GoStep(s, t).threads[t] == Worker(WorkerNext(s, s.threads[t].w))
  {
  }

  lemma WorkerChanMoves(s: State, t: nat)
    requires CanGo(s, t) && s.threads[t].Worker? && Frame(s, GoStep(s, t), t)
    requires GoStep(s, t).threads[t] == Worker(WorkerNext(s, s.threads[t].w))
    ensures ChanMoves(s, GoStep(s, t), t)
  {
  }

  lemma WorkerSubMoves(s: State, t: nat)
    requires CanGo(s, t) && s.threads[t].Worker? && Frame(s, GoStep(s, t), t)
    requires GoStep(s, t).threads[t] == Worker(WorkerNext(s, s.threads[t].w))
    ensures AllMoves(s, GoStep(s, t), t) && SubMoves(s, GoStep(s, t), t)
  {
  }

  lemma SubscribeChanMoves(s: State, t: nat)
    requires CanGo(s, t) && s.threads[t].Subscribing?
    ensures Frame(s, GoStep(s, t), t) && ChanMoves(s, GoStep(s, t), t)
  {
  }

  lemma SubscribeSubMoves(s: State, t: nat)
    requires CanGo(s, t) && s.threads[t].Subscribing?
    ensures Frame(s, GoStep(s, t), t) && AllMoves(s, GoStep(s, t), t) && SubMoves(s, GoStep(s, t), t)
  {
  }

  lemma UnsubscribeChanMoves(s: State, t: nat)
    requires CanGo(s, t) && s.threads[t].Leaving?
    ensures Frame(s, GoStep(s, t), t) && ChanMoves(s, GoStep(s, t), t)
  {
  }

  lemma UnsubscribeSubMoves(s: State, t: nat)
    requires CanGo(s, t) && s.threads[t].Leaving?
    ensures Frame(s, GoStep(s, t), t) && AllMoves(s, GoStep(s, t), t) && SubMoves(s, GoStep(s, t), t)
  {
  }

  lemma ReceiveEffect(s: State, t: nat)
    requires CanGo(s, t) && s.threads[t].Receiving?
    ensures Effect(s, GoStep(s, t), t)
  {
    ReceiveFrame(s, t);
    ReceiveSubMoves(s, t);
  }

  lemma ReceiveFrame(s: State, t: nat)
    requires CanGo(s, t) && s.threads[t].Receiving?
    ensures Frame(s, GoStep(s, t), t) && AllMoves(s, GoStep(s, t), t) && ChanMoves(s, GoStep(s, t), t)
  {
  }

  lemma ReceiveSubMoves(s: State, t: nat)
    requires CanGo(s, t) && s.threads[t].Receiving? && Frame(s, GoStep(s, t), t)
    ensures SubMoves(s, GoStep(s, t), t)
  {
    var p, r := s.threads[t].p, s.threads[t].r;
    assert GoStep(s, t).threads[t] == RecvNext(s.subs[p], p, r);
    assert GoStep(s, t).subs == s.subs[p := RecvSub(s.subs[p], t, p, r)];
    ReceiveOwnMoves(s, t);
  }

  lemma ReceiveOwnMoves(s: State, t: nat)
    requires CanGo(s, t) && s.threads[t].Receiving?
    ensures
      var p, r := s.threads[t].p, s.threads[t].r;
      var th', sub' := RecvNext(s.subs[p], p, r), RecvSub(s.subs[p], t, p, r);
      && (Using(th') == None || Using(th') == Some(p))
      && (HeldInbox(th') == None || HeldInbox(th') == Some(p))
      && Moved(HeldInbox(s.threads[t]), HeldInbox(th'), p, s.subs[p].lock, sub'.lock, t)
      && Moved(Some(p), Using(th'), p, s.subs[p].user, sub'.user, t)
  {
  }

  lemma PublishEffect(s: State, t: nat)
    requires CanGo(s, t) && s.threads[t].Publishing?
    ensures Effect(s, GoStep(s, t), t)
  {
  }

  lemma GoEffect(s: State, t: nat)
    requires CanGo(s, t)
    ensures Effect(s, GoStep(s, t), t)
  {
    match s.threads[t]
    case Worker(_) => WorkerFrame(s, t); WorkerChanMoves(s, t); WorkerSubMoves(s, t);
    case Subscribing(_, _) => SubscribeChanMoves(s, t); SubscribeSubMoves(s, t);
    case Leaving(_, _) => UnsubscribeChanMoves(s, t); UnsubscribeSubMoves(s, t);
    case Receiving(_, _) => ReceiveEffect(s, t);
    case Publishing(_) => PublishEffect(s, t);
  }

  // ---------------------------------------------------------------- kinds of call

  /** A thread stays inside its call, on the same subscription, until the call ends. */
  predicate SameKind(th: Thread, th': Thread) {
    match th
    case Worker(_) => th'.Worker?
    case Publishing(_) => th'.Idle?
    case Subscribing(p, _) => (th'.Subscribing? || th'.Done?) && th'.p == p
    case Receiving(p, _) => (th'.Receiving? || th'.Done?) && th'.p == p
    case Leaving(p, _) => (th'.Leaving? || th'.Done?) && th'.p == p
    case _ => false
  }

  /** What only workers and publishers change. */
  predicate MessagesStill(s: State, s': State) {
    s'.queue == s.queue && s'.place == s.place && s'.finished == s.finished && s'.published == s.published
  }

  lemma WorkerKind(s: State, t: nat)
    requires CanGo(s, t) && s.threads[t].Worker?
    ensures |GoStep(s, t).threads| == |s.threads| && GoStep(s, t).threads[t] == Worker(WorkerNext(s, s.threads[t].w))
  {
  }

  lemma SubscribeKind(s: State, t: nat)
    requires CanGo(s, t) && s.threads[t].Subscribing?
    ensures |GoStep(s, t).threads| == |s.threads| && SameKind(s.threads[t], GoStep(s, t).threads[t])
    ensures MessagesStill(s, GoStep(s, t))
  {
    assert GoStep(s, t).threads[t] == SubNext(s, s.threads[t].p, s.threads[t].s);
  }

  lemma ReceiveKind(s: State, t: nat)
    requires CanGo(s, t) && s.threads[t].Receiving?
    ensures |GoStep(s, t).threads| == |s.threads| && SameKind(s.threads[t], GoStep(s, t).threads[t])
    ensures MessagesStill(s, GoStep(s, t))
  {
    assert GoStep(s, t).threads[t] == RecvNext(s.subs[s.threads[t].p], s.threads[t].p, s.threads[t].r);
  }

  lemma UnsubscribeKind(s: State, t: nat)
    requires CanGo(s, t) && s.threads[t].Leaving?
    ensures |GoStep(s, t).threads| == |s.threads| && SameKind(s.threads[t], GoStep(s, t).threads[t])
    ensures MessagesStill(s, GoStep(s, t))
  {
    assert GoStep(s, t).threads[t] == UnsubNext(s, s.threads[t].p, s.threads[t].u);
  }

  lemma GoKind(s: State, t: nat)
    requires CanGo(s, t)
    ensures |GoStep(s, t).threads| == |s.threads| && SameKind(s.threads[t], GoStep(s, t).threads[t])
    ensures !s.threads[t].Worker? && !s.threads[t].Publishing? ==> MessagesStill(s, GoStep(s, t))
  {
    match s.threads[t]
    case Worker(_) => WorkerKind(s, t);
    case Subscribing(_, _) => SubscribeKind(s, t);
    case Receiving(_, _) => ReceiveKind(s, t);
    case Leaving(_, _) => UnsubscribeKind(s, t);
    case Publishing(_) => assert GoStep(s, t).threads[t] == Idle;
  }
}
