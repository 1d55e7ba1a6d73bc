/** Every published message is in one place, and enters one log once, in every interleaving. */
module BrokerIds {
  import opened Prelude
  import opened Broker
  import opened BrokerSteps
  import opened BrokerStructure
  import opened BrokerLists
  import opened BrokerOrder

  /** A message on its way to a log. */
  function Carried(th: Thread): Option<Msg> {
    match th
    case Publishing(m) => Some(m)
    case Worker(w) =>
      if w.WLockAll? || w.WLookup? || w.WCreate? || w.WUnlockAll? || w.WLockChan? then Some(w.m) else None
    case _ => None
  }

  /** A message whose walk has begun and not ended. */
  function Delivering(th: Thread): Option<Msg> {
    match th
    case Worker(w) => if Walking(w) || w.WUnlockChan? then Some(w.m) else None
    case _ => None
  }

  /** The message is the one that was published under its id. */
  predicate Genuine(s: State, m: Msg) {
    m.id in s.published && s.published[m.id] == m
  }

  ghost predicate CarriedOk(s: State, t: nat)
    requires t < |s.threads|
  {
    Carried(s.threads[t]).Some? ==>
      var m := Carried(s.threads[t]).value;
      m.id in s.place && s.place[m.id] == AtThread(t) && Genuine(s, m)
  }

  ghost predicate Travellers(s: State) {
    forall t :: 0 <= t < |s.threads| ==> CarriedOk(s, t)
  }

  ghost predicate QueueOk(s: State) {
    && (forall q :: 0 <= q < |s.queue| ==>
          && s.queue[q].id in s.place && s.place[s.queue[q].id] == Queued && Genuine(s, s.queue[q]))
    && (forall q, r :: 0 <= q < r < |s.queue| ==> s.queue[q].id != s.queue[r].id)
  }

  ghost predicate LogsOk(s: State) {
    forall c, k :: 0 <= c < |s.chans| && 0 <= k < |s.chans[c].log| ==>
      && s.chans[c].log[k].id in s.place && s.place[s.chans[c].log[k].id] == Logged(c, k)
      && s.chans[c].log[k].name == s.chans[c].name && Genuine(s, s.chans[c].log[k])
  }

  /** The recorded place of an id is where the message is. */
  ghost predicate PlaceOk(s: State, id: nat)
    requires id in s.place
  {
    && 1 <= id < s.nextMsg
    && match s.place[id]
       case AtThread(t) => t < |s.threads| && Carried(s.threads[t]).Some? && Carried(s.threads[t]).value.id == id
       case Queued => exists q :: 0 <= q < |s.queue| && s.queue[q].id == id
       case Logged(c, k) => c < |s.chans| && k < |s.chans[c].log| && s.chans[c].log[k].id == id
  }

  ghost predicate PlacesOk(s: State) {
    && (forall id :: id in s.place ==> PlaceOk(s, id))
    && (forall id :: 1 <= id < s.nextMsg ==> id in s.place)
    && s.nextMsg >= 1
  }

  ghost predicate FinishedOk(s: State) {
    && (forall id :: id in s.finished ==> id in s.place && s.place[id].Logged?)
    && (forall t :: 0 <= t < |s.threads| && Delivering(s.threads[t]).Some? ==>
          Delivering(s.threads[t]).value.id !in s.finished)
  }

  /** Whatever was logged before a proxy was linked had drawn its id before. */
  ghost predicate BornOk(s: State, p: nat)
    requires p < |s.subs|
  {
    var sub := s.subs[p];
    !sub.life.Private? ==>
      && sub.chan < |s.chans| && s.chans[sub.chan].name == sub.name && sub.born <= s.nextMsg && sub.join <= |s.chans[sub.chan].log|
      && forall k :: 0 <= k < sub.join ==> s.chans[sub.chan].log[k].id < sub.born
  }

  ghost predicate Born(s: State) {
    forall p :: 0 <= p < |s.subs| ==> BornOk(s, p)
  }

  ghost predicate Ids(s: State) {
    Travellers(s) && QueueOk(s) && LogsOk(s) && PlacesOk(s) && FinishedOk(s) && Born(s)
  }

  // ---------------------------------------------------------------- effects

  ghost predicate MsgMoves(s: State, s': State, t: nat)
    requires t < |s.threads| == |s'.threads|
  {
    var th := s.threads[t];
    var th' := s'.threads[t];
    && (th == Worker(WIdle) ==>
          && s.queue != [] && s'.queue == s.queue[1..] && s'.place == s.place[s.queue[0].id := AtThread(t)]
          && Carried(th') == Some(s.queue[0]))
    && (th.Publishing? ==>
          s'.queue == s.queue + [th.m] && s'.place == s.place[th.m.id := Queued] && Carried(th').None?)
    && (th.Worker? && th.w.WLockChan? ==>
          && th.w.c < |s.chans| && s'.queue == s.queue
          && s'.place == s.place[th.w.m.id := Logged(th.w.c, |s.chans[th.w.c].log|)]
          && Carried(th').None? && Delivering(th') == Some(th.w.m))
    && (th != Worker(WIdle) && !th.Publishing? && !(th.Worker? && th.w.WLockChan?) ==>
          s'.queue == s.queue && s'.place == s.place && Carried(th') == Carried(th)
          && (Delivering(th').Some? ==> Delivering(th') == Delivering(th)))
    && s'.finished == (if th.Worker? && th.w.WUnlockChan? then s.finished + {th.w.m.id} else s.finished)
    && ((th == Worker(WIdle) || th.Publishing? || (th.Worker? && th.w.WUnlockChan?)) ==> Delivering(th').None?)
  }

  lemma WorkerMsgMoves(s: State, t: nat)
    requires CanGo(s, t) && s.threads[t].Worker?
    ensures |GoStep(s, t).threads| == |s.threads| && MsgMoves(s, GoStep(s, t), t)
  {
    assert GoStep(s, t).threads[t] == Worker(WorkerNext(s, s.threads[t].w));
  }

  lemma PublisherMsgMoves(s: State, t: nat)
    requires CanGo(s, t) && s.threads[t].Publishing?
    ensures |GoStep(s, t).threads| == |s.threads| && MsgMoves(s, GoStep(s, t), t)
  {
    assert GoStep(s, t).threads[t] == Idle;
  }

  lemma StillMsgMoves(s: State, s': State, t: nat)
    requires t < |s.threads| == |s'.threads| && MessagesStill(s, s') && SameKind(s.threads[t], s'.threads[t])
    requires !s.threads[t].Worker? && !s.threads[t].Publishing?
    ensures MsgMoves(s, s', t)
  {
  }

  lemma GoMsgMoves(s: State, t: nat)
    requires CanGo(s, t)
    ensures |GoStep(s, t).threads| == |s.threads| && MsgMoves(s, GoStep(s, t), t)
  {
    if s.threads[t].Worker? {
      WorkerMsgMoves(s, t);
    } else {
      GoKind(s, t);
      if s.threads[t].Publishing? {
        PublisherMsgMoves(s, t);
      } else {
        StillMsgMoves(s, GoStep(s, t), t);
      }
    }
  }

  // ---------------------------------------------------------------- preservation

  lemma WokenCarriesTheSame(th: Thread, th': Thread)
    requires ThreadAfter(th, th')
    ensures Carried(th') == Carried(th) && Delivering(th') == Delivering(th)
  {
  }

  lemma OthersCarryTheSame(s: State, s': State, t: nat)
    requires Frame(s, s', t)
    ensures forall u :: 0 <= u < |s.threads| && u != t ==>
              Carried(s'.threads[u]) == Carried(s.threads[u]) && Delivering(s'.threads[u]) == Delivering(s.threads[u])
  {
    forall u | 0 <= u < |s.threads| && u != t
      ensures Carried(s'.threads[u]) == Carried(s.threads[u]) && Delivering(s'.threads[u]) == Delivering(s.threads[u])
    {
      WokenCarriesTheSame(s.threads[u], s'.threads[u]);
    }
  }

  lemma TravellersKept(s: State, s': State, t: nat)
    requires Travellers(s) && QueueOk(s) && Frame(s, s', t) && MsgMoves(s, s', t)
    ensures Travellers(s')
  {
    OthersCarryTheSame(s, s', t);
    assert CarriedOk(s, t);
    forall u | 0 <= u < |s'.threads| ensures CarriedOk(s', u) {
      assert CarriedOk(s, u);
    }
  }

  lemma QueueKept(s: State, s': State, t: nat)
    requires Travellers(s) && QueueOk(s) && Frame(s, s', t) && MsgMoves(s, s', t)
    ensures QueueOk(s')
  {
    assert CarriedOk(s, t);
  }

  lemma LogsKept(s: State, s': State, t: nat)
    requires Travellers(s) && QueueOk(s) && LogsOk(s) && Lookups(s)
    requires Frame(s, s', t) && ChanMoves(s, s', t) && MsgMoves(s, s', t)
    ensures LogsOk(s')
  {
    assert CarriedOk(s, t) && LookedUp(s, s.threads[t]);
    forall c, k | 0 <= c < |s'.chans| && 0 <= k < |s'.chans[c].log|
      ensures s'.chans[c].log[k].id in s'.place && s'.place[s'.chans[c].log[k].id] == Logged(c, k)
      ensures s'.chans[c].log[k].name == s'.chans[c].name && Genuine(s', s'.chans[c].log[k])
    {
      if c < |s.chans| && k < |s.chans[c].log| {
        assert s'.chans[c].log[k] == s.chans[c].log[k];
        LoggedStays(s, s', t, s.chans[c].log[k], c, k);
      }
    }
  }

  /** A logged message is not the one that a step puts somewhere else. */
  lemma LoggedStays(s: State, s': State, t: nat, m: Msg, c: nat, k: nat)
    requires t < |s.threads| == |s'.threads| && CarriedOk(s, t) && QueueOk(s) && MsgMoves(s, s', t)
    requires m.id in s.place && s.place[m.id] == Logged(c, k)
    ensures m.id in s'.place && s'.place[m.id] == Logged(c, k)
  {
  }

  lemma PlaceKept(s: State, s': State, t: nat, id: nat)
    requires Travellers(s) && QueueOk(s) && LogsOk(s) && id in s.place && PlaceOk(s, id)
    requires Frame(s, s', t) && ChanMoves(s, s', t) && MsgMoves(s, s', t)
    ensures id in s'.place && PlaceOk(s', id)
  {
    OthersCarryTheSame(s, s', t);
    assert CarriedOk(s, t);
    var th := s.threads[t];
    match s.place[id]
    case AtThread(u) =>
      if u == t {
        if th.Publishing? {
          assert s'.queue[|s.queue|].id == id;
        }
      }
    case Queued =>
      var q :| 0 <= q < |s.queue| && s.queue[q].id == id;
      if th == Worker(WIdle) {
        if q > 0 {
          assert s'.queue[q - 1].id == id;
        }
      } else {
        assert s'.queue[q].id == id;
      }
    case Logged(c, k) => assert s'.chans[c].log[k] == s.chans[c].log[k];
  }

  lemma PlacesKept(s: State, s': State, t: nat)
    requires Travellers(s) && QueueOk(s) && LogsOk(s) && PlacesOk(s)
    requires Frame(s, s', t) && ChanMoves(s, s', t) && MsgMoves(s, s', t)
    ensures PlacesOk(s')
  {
    assert CarriedOk(s, t);
    forall id | id in s'.place ensures PlaceOk(s', id) {
      assert id in s.place;
      PlaceKept(s, s', t, id);
    }
  }

  lemma FinishedKept(s: State, s': State, t: nat)
    requires ChanLocks(s) && Walks(s) && Ids(s) && Frame(s, s', t) && MsgMoves(s, s', t)
    ensures FinishedOk(s')
  {
    OthersCarryTheSame(s, s', t);
    assert CarriedOk(s, t);
    var th := s.threads[t];
    forall u | 0 <= u < |s'.threads| && Delivering(s'.threads[u]).Some?
      ensures Delivering(s'.threads[u]).value.id !in s'.finished
    {
      if u != t && th.Worker? && th.w.WUnlockChan? {
        assert WalkOk(s, th) && WalkOk(s, s.threads[u]);
        assert HeldChan(th) == Some(th.w.c) && HeldChan(s.threads[u]) == Some(s.threads[u].w.c);
      }
    }
    if th.Worker? && th.w.WUnlockChan? {
      assert WalkOk(s, th);
    }
  }

  lemma BornKept(s: State, s': State, t: nat)
    requires Structure(s) && LogsOk(s) && PlacesOk(s) && Born(s) && Effect(s, s', t)
    ensures Born(s')
  {
    var th := s.threads[t];
    forall p | 0 <= p < |s'.subs| ensures BornOk(s', p) {
      assert BornOk(s, p);
      if th.Subscribing? && th.s.SInsert? && th.p == p {
        BornLinked(s, s', t);
      } else {
        BornStays(s, s', t, p);
      }
    }
  }

  /** Logs only grow, so what was logged before a proxy joined stays what it was. */
  lemma BornStays(s: State, s': State, t: nat, p: nat)
    requires Structure(s) && Effect(s, s', t) && p < |s.subs| && BornOk(s, p)
    requires !(s.threads[t].Subscribing? && s.threads[t].s.SInsert? && s.threads[t].p == p)
    ensures BornOk(s', p)
  {
    assert CallState(s, s.threads[t]);
    JoinKept(s, s', t, p);
    var c := s.subs[p].chan;
    if c < |s.chans| {
      assert s'.chans[c].log == LogAfter(s.threads[t], c, s.chans[c]);
      assert s'.chans[c].name == s.chans[c].name;
    }
  }

  lemma JoinKept(s: State, s': State, t: nat, p: nat)
    requires Effect(s, s', t) && p < |s.subs| && CallState(s, s.threads[t])
    requires !(s.threads[t].Subscribing? && s.threads[t].s.SInsert? && s.threads[t].p == p)
    ensures
      var sub, sub' := s.subs[p], s'.subs[p];
      && sub'.chan == sub.chan && sub'.name == sub.name && sub'.join == sub.join && sub'.born == sub.born
      && (sub.life.Private? ==> sub'.life.Private?)
  {
  }

  lemma BornLinked(s: State, s': State, t: nat)
    requires Structure(s) && LogsOk(s) && PlacesOk(s) && Effect(s, s', t)
    requires s.threads[t].Subscribing? && s.threads[t].s.SInsert? && s.threads[t].p < |s'.subs|
    ensures BornOk(s', s.threads[t].p)
  {
    var th := s.threads[t];
    assert CallState(s, th) && LookedUp(s, th);
    LoggedIdsDrawn(s, th.s.c);
  }

  /** Every id in a channel's log has been drawn. */
  lemma LoggedIdsDrawn(s: State, c: nat)
    requires LogsOk(s) && PlacesOk(s) && c < |s.chans|
    ensures forall k :: 0 <= k < |s.chans[c].log| ==> s.chans[c].log[k].id < s.nextMsg
  {
    forall k | 0 <= k < |s.chans[c].log| ensures s.chans[c].log[k].id < s.nextMsg {
      assert PlaceOk(s, s.chans[c].log[k].id);
    }
  }

  lemma GoKeepsIds(s: State, t: nat)
    requires Structure(s) && Order(s) && Ids(s) && CanGo(s, t)
    ensures Ids(GoStep(s, t))
  {
    var s' := GoStep(s, t);
    GoEffect(s, t);
    GoMsgMoves(s, t);
    TravellersKept(s, s', t);
    QueueKept(s, s', t);
    LogsKept(s, s', t);
    PlacesKept(s, s', t);
    FinishedKept(s, s', t);
    BornKept(s, s', t);
  }

  // ---------------------------------------------------------------- calls that begin, spurious wake-ups, teardown

  lemma PublishKeepsIds(s: State, t: nat, op: Op)
    requires Ids(s) && CanBegin(s, t, op) && op.Publish?
    ensures Ids(BeginStep(s, t, op))
  {
    var s' := BeginStep(s, t, op);
    forall i | i in s.place ensures i < s.nextMsg {
      assert PlaceOk(s, i);
    }
    forall u | 0 <= u < |s'.threads| ensures CarriedOk(s', u) {
      assert CarriedOk(s, u);
    }
    PublishPlaces(s, t, op);
    forall p | 0 <= p < |s'.subs| ensures BornOk(s', p) {
      assert BornOk(s, p);
    }
  }

  lemma PublishPlaces(s: State, t: nat, op: Op)
    requires PlacesOk(s) && CanBegin(s, t, op) && op.Publish? && 1 <= s.nextMsg
    ensures PlacesOk(BeginStep(s, t, op))
  {
    var s' := BeginStep(s, t, op);
    forall i | i in s'.place ensures PlaceOk(s', i) {
      if i != s.nextMsg {
        assert PlaceOk(s, i);
        if s.place[i].Queued? {
          var q :| 0 <= q < |s.queue| && s.queue[q].id == i;
          assert s'.queue[q].id == i;
        }
      }
    }
  }

  /** A step that moves no message. */
  ghost predicate MsgsSame(s: State, s': State) {
    && |s'.threads| == |s.threads| && s'.queue == s.queue && s'.place == s.place && s'.finished == s.finished
    && s'.nextMsg == s.nextMsg && s'.published == s.published && |s'.chans| == |s.chans| && |s.subs| <= |s'.subs|
    && (forall c :: 0 <= c < |s.chans| ==> s'.chans[c].log == s.chans[c].log && s'.chans[c].name == s.chans[c].name)
    && (forall u :: 0 <= u < |s.threads| ==>
          Carried(s'.threads[u]) == Carried(s.threads[u]) && Delivering(s'.threads[u]) == Delivering(s.threads[u]))
    && (forall p :: 0 <= p < |s.subs| ==>
          && s'.subs[p].name == s.subs[p].name && s'.subs[p].join == s.subs[p].join && s'.subs[p].born == s.subs[p].born && s'.subs[p].chan == s.subs[p].chan
          && (s'.subs[p].life.Private? <==> s.subs[p].life.Private?))
    && (forall p :: |s.subs| <= p < |s'.subs| ==> s'.subs[p].life.Private?)
  }

  lemma SameMsgsKeepIds(s: State, s': State)
    requires Ids(s) && MsgsSame(s, s')
    ensures Ids(s')
  {
    forall u | 0 <= u < |s'.threads| ensures CarriedOk(s', u) {
      assert CarriedOk(s, u);
    }
    forall i | i in s'.place ensures PlaceOk(s', i) {
      assert PlaceOk(s, i);
    }
    forall p | 0 <= p < |s'.subs| ensures BornOk(s', p) {
      if p < |s.subs| {
        assert BornOk(s, p);
      }
    }
  }

  lemma BeginKeepsIds(s: State, t: nat, op: Op)
    requires Ids(s) && CanBegin(s, t, op)
    ensures Ids(BeginStep(s, t, op))
  {
    if op.Publish? {
      PublishKeepsIds(s, t, op);
    } else {
      SameMsgsKeepIds(s, BeginStep(s, t, op));
    }
  }

  lemma IdsKept(s: State, step: Step)
    requires Structure(s) && Order(s) && Ids(s) && Enabled(s, step)
    ensures Ids(Apply(s, step))
  {
    match step
    case Go(t) => GoKeepsIds(s, t);
    case Begin(t, op) => BeginKeepsIds(s, t, op);
    case _ => SameMsgsKeepIds(s, Apply(s, step));
  }
}
