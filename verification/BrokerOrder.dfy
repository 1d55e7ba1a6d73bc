/** Every subscriber's history is a gap-free segment of its channel's log, in every interleaving. */
module BrokerOrder {
  import opened Prelude
  import opened Broker
  import opened BrokerSteps
  import opened BrokerStructure
  import opened BrokerLists

  /** Everything delivered to a subscription so far, in order. */
  function History(sub: Sub): seq<Msg> {
    sub.taken + sub.inbox
  }

  ghost predicate IsSegment(h: seq<Msg>, log: seq<Msg>, from: nat) {
    from + |h| <= |log| && h == log[from..from + |h|]
  }

  ghost predicate SegmentOk(s: State, p: nat)
    requires p < |s.subs|
  {
    if s.subs[p].life.Private? then History(s.subs[p]) == []
    else s.subs[p].chan < |s.chans| && IsSegment(History(s.subs[p]), s.chans[s.subs[p].chan].log, s.subs[p].join)
  }

  /** The worker walking channel `c`, if there is one, holds its mutex. */
  predicate WalkedBy(s: State, c: nat, t: nat)
    requires c < |s.chans|
  {
    s.chans[c].lock == HeldBy(t) && t < |s.threads| && s.threads[t].Worker? && Walking(s.threads[t].w)
  }

  /** How many entries of the list of `c` the current walk has dealt with; all of them when there is none. */
  function Served(s: State, c: nat): nat
    requires c < |s.chans|
  {
    var l := s.chans[c].lock;
    if l.HeldBy? && WalkedBy(s, c, l.thread) then
      var w := s.threads[l.thread].w;
      if w.WSignal? then w.i + 1 else w.i
    else |s.chans[c].proxies|
  }

  /** How many messages of the log the subscription at entry `k` still misses. */
  function Missing(s: State, c: nat, k: nat): nat
    requires c < |s.chans|
  {
    if k < Served(s, c) then 0 else 1
  }

  predicate CaughtUpAt(s: State, c: nat, k: nat)
    requires c < |s.chans| && k < |s.chans[c].proxies|
  {
    var p := s.chans[c].proxies[k];
    p < |s.subs| && (s.subs[p].active ==> s.subs[p].join + |History(s.subs[p])| + Missing(s, c, k) == |s.chans[c].log|)
  }

  ghost predicate Segments(s: State) {
    forall p :: 0 <= p < |s.subs| ==> SegmentOk(s, p)
  }

  ghost predicate CaughtUp(s: State) {
    forall c, k :: 0 <= c < |s.chans| && 0 <= k < |s.chans[c].proxies| ==> CaughtUpAt(s, c, k)
  }

  /** A walk delivers the last logged message. */
  predicate LastLogged(s: State, th: Thread) {
    th.Worker? && (Walking(th.w) || th.w.WUnlockChan?) ==>
      && th.w.c < |s.chans|
      && |s.chans[th.w.c].log| > 0 && s.chans[th.w.c].log[|s.chans[th.w.c].log| - 1] == th.w.m
  }

  /** A walk about to append finds the inbox exactly one message behind, even if it is no longer active. */
  predicate PushReady(s: State, th: Thread) {
    th.Worker? && th.w.WPush? ==>
      && AtProxy(s, th.w)
      && var sub := s.subs[Reached(s, th.w)];
         sub.join + |History(sub)| + 1 == |s.chans[th.w.c].log|
  }

  predicate WalkOk(s: State, th: Thread) {
    LastLogged(s, th) && PushReady(s, th)
  }

  ghost predicate Walks(s: State) {
    forall t :: 0 <= t < |s.threads| ==> WalkOk(s, s.threads[t])
  }

  ghost predicate Order(s: State) {
    Segments(s) && CaughtUp(s) && Walks(s)
  }

  // ---------------------------------------------------------------- segments

  lemma OwnHistory(s: State, t: nat, th: Thread, sub: Sub)
    ensures History(OwnSub(s, t, th, sub)) == History(sub)
    ensures OwnSub(s, t, th, sub).active ==> sub.active
  {
    match th
    case Receiving(p, r) =>
      if (r.RTake? || r.TTake?) && sub.inbox != [] {
        assert sub.inbox == [sub.inbox[0]] + sub.inbox[1..];
      }
    case _ =>
  }

  lemma SegmentGrows(h: seq<Msg>, log: seq<Msg>, from: nat, m: Msg)
    requires IsSegment(h, log, from)
    ensures IsSegment(h, log + [m], from)
  {
  }

  lemma SegmentPushes(h: seq<Msg>, log: seq<Msg>, from: nat)
    requires IsSegment(h, log, from) && from + |h| + 1 == |log|
    ensures IsSegment(h + [log[|log| - 1]], log, from)
  {
  }

  lemma SegmentOfOwn(s: State, s': State, t: nat, p: nat)
    requires Structure(s) && Effect(s, s', t) && p < |s.subs| && SegmentOk(s, p) && Using(s.threads[t]) == Some(p)
    ensures SegmentOk(s', p)
  {
    var th := s.threads[t];
    OwnHistory(s, t, th, s.subs[p]);
    assert CallState(s, th) && LookedUp(s, th);
    assert History(s'.subs[p]) == History(s.subs[p]);
  }

  lemma SegmentAfter(s: State, s': State, t: nat, p: nat)
    requires Structure(s) && Walks(s) && Effect(s, s', t) && p < |s.subs| && SegmentOk(s, p)
    ensures SegmentOk(s', p)
  {
    var th := s.threads[t];
    var sub := s.subs[p];
    if Using(th) == Some(p) {
      SegmentOfOwn(s, s', t, p);
    } else if PushesTo(s, th, p) {
      PushKeepsSegment(s, s', t, p);
    } else if !sub.life.Private? && th.Worker? && th.w.WLockChan? && th.w.c == sub.chan {
      SegmentGrows(History(sub), s.chans[sub.chan].log, sub.join, th.w.m);
    }
  }

  lemma PushKeepsSegment(s: State, s': State, t: nat, p: nat)
    requires Structure(s) && Walks(s) && Effect(s, s', t) && p < |s.subs| && SegmentOk(s, p)
    requires PushesTo(s, s.threads[t], p)
    ensures SegmentOk(s', p)
  {
    var w := s.threads[t].w;
    assert WalkOk(s, s.threads[t]) && EntryOk(s, w.c, w.i);
    PushedSegment(s, s', p, w.m);
  }

  lemma PushedSegment(s: State, s': State, p: nat, m: Msg)
    requires p < |s.subs| && p < |s'.subs| && s'.subs[p] == s.subs[p].(inbox := s.subs[p].inbox + [m])
    requires SegmentOk(s, p) && !s.subs[p].life.Private? && s.subs[p].chan < |s'.chans|
    requires s'.chans[s.subs[p].chan].log == s.chans[s.subs[p].chan].log
    requires
      var log := s.chans[s.subs[p].chan].log;
      s.subs[p].join + |History(s.subs[p])| + 1 == |log| && log[|log| - 1] == m
    ensures SegmentOk(s', p)
  {
    var sub := s.subs[p];
    SegmentPushes(History(sub), s.chans[sub.chan].log, sub.join);
    assert History(s'.subs[p]) == History(sub) + [m];
  }

  lemma SegmentsKept(s: State, s': State, t: nat)
    requires Structure(s) && Segments(s) && Walks(s) && Effect(s, s', t)
    ensures Segments(s')
  {
    forall p | 0 <= p < |s'.subs| ensures SegmentOk(s', p) {
      assert SegmentOk(s, p);
      SegmentAfter(s, s', t, p);
    }
  }

  // ---------------------------------------------------------------- nobody falls behind

  /** A channel that thread `t` neither holds nor acquires keeps its list, its log and its walk. */
  lemma ChannelElsewhere(s: State, s': State, t: nat, c: nat)
    requires ChanLocks(s) && Frame(s, s', t) && ChanMoves(s, s', t) && HeldsMatch(s, t) && c < |s.chans|
    requires HeldChan(s.threads[t]) != Some(c) && HeldChan(s'.threads[t]) != Some(c)
    requires s.threads[t].Worker? && s.threads[t].w.WLockChan? ==> HeldChan(s'.threads[t]) == Some(s.threads[t].w.c)
    ensures s'.chans[c].proxies == s.chans[c].proxies && s'.chans[c].log == s.chans[c].log
    ensures s'.chans[c].lock == s.chans[c].lock && Served(s', c) == Served(s, c)
  {
    var l := s.chans[c].lock;
    if l.HeldBy? {
      assert HeldChan(s.threads[l.thread]) == Some(c);
    }
  }

  /** A delivered-to or consumed subscription keeps its distance to the log, unless the walk pushes to it. */
  lemma DistanceKept(s: State, s': State, t: nat, p: nat)
    requires Frame(s, s', t) && SubMoves(s, s', t) && p < |s.subs| && !PushesTo(s, s.threads[t], p)
    requires !(s.threads[t].Subscribing? && s.threads[t].s.SInsert? && s.threads[t].p == p)
    ensures |History(s'.subs[p])| == |History(s.subs[p])| && s'.subs[p].join == s.subs[p].join
    ensures s'.subs[p].active ==> s.subs[p].active
  {
    OwnHistory(s, t, s.threads[t], s.subs[p]);
  }

  lemma CaughtUpElsewhere(s: State, s': State, t: nat, c: nat, k: nat)
    requires Structure(s) && Effect(s, s', t) && c < |s.chans| && k < |s.chans[c].proxies| && CaughtUpAt(s, c, k)
    requires HeldChan(s.threads[t]) != Some(c) && HeldChan(s'.threads[t]) != Some(c)
    requires s.threads[t].Worker? && s.threads[t].w.WLockChan? ==> HeldChan(s'.threads[t]) == Some(s.threads[t].w.c)
    ensures s'.chans[c].proxies == s.chans[c].proxies && CaughtUpAt(s', c, k)
  {
    ChannelElsewhere(s, s', t, c);
    NotPushedElsewhere(s, t, c, k);
    DistanceKept(s, s', t, s.chans[c].proxies[k]);
  }

  /** A thread that does not hold channel `c` neither pushes to nor links a subscription on its list. */
  lemma NotPushedElsewhere(s: State, t: nat, c: nat, k: nat)
    requires Structure(s) && t < |s.threads| && c < |s.chans| && k < |s.chans[c].proxies| && HeldChan(s.threads[t]) != Some(c)
    ensures !PushesTo(s, s.threads[t], s.chans[c].proxies[k])
    ensures !(s.threads[t].Subscribing? && s.threads[t].s.SInsert? && s.threads[t].p == s.chans[c].proxies[k])
  {
    var th := s.threads[t];
    assert EntryOk(s, c, k) && CallState(s, th);
    if th.Worker? && th.w.WPush? && AtProxy(s, th.w) {
      assert EntryOk(s, th.w.c, th.w.i);
    }
  }

  /** How a walk's step changes what entry `k` misses. */
  lemma WalkMissing(s: State, t: nat, c: nat, k: nat)
    requires CanGo(s, t) && s.threads[t].Worker? && ChanLocks(s) && Standing(s, s.threads[t])
    requires s.threads[t].w.WLockChan? || Walking(s.threads[t].w) || s.threads[t].w.WUnlockChan?
    requires s.threads[t].w.c == c && c < |s.chans| && k < |s.chans[c].proxies|
    ensures var w := s.threads[t].w; var s' := GoStep(s, t);
            && |s'.chans| == |s.chans| && s'.chans[c].proxies == s.chans[c].proxies
            && |s'.chans[c].log| == |s.chans[c].log| + (if w.WLockChan? then 1 else 0)
            && (w.WLockChan? ==> Missing(s, c, k) == 0 && Missing(s', c, k) == 1)
            && (w.WPush? && k == w.i ==> Missing(s, c, k) == 1 && Missing(s', c, k) == 0)
            && (!w.WLockChan? && Missing(s', c, k) != Missing(s, c, k) ==>
                  Walking(w) && k == w.i && (w.WPush? || !s.subs[s.chans[c].proxies[k]].active))
  {
    var w := s.threads[t].w;
    assert GoStep(s, t).threads[t] == Worker(WorkerNext(s, w));
    if !w.WLockChan? {
      assert HeldChan(s.threads[t]) == Some(c) && s.chans[c].lock == HeldBy(t);
    }
  }

  lemma CaughtUpWorker(s: State, t: nat, c: nat, k: nat)
    requires Structure(s) && Order(s) && CanGo(s, t) && s.threads[t].Worker?
    requires s.threads[t].w.WLockChan? || Walking(s.threads[t].w) || s.threads[t].w.WUnlockChan?
    requires s.threads[t].w.c == c && c < |s.chans| && k < |s.chans[c].proxies|
    ensures c < |GoStep(s, t).chans| && k < |GoStep(s, t).chans[c].proxies| && CaughtUpAt(GoStep(s, t), c, k)
  {
    var s' := GoStep(s, t);
    var w := s.threads[t].w;
    var p := s.chans[c].proxies[k];
    assert CaughtUpAt(s, c, k) && Standing(s, s.threads[t]) && EntryOk(s, c, k);
    WalkMissing(s, t, c, k);
    GoEffect(s, t);
    if w.WPush? && k == w.i {
      assert History(s'.subs[p]) == History(s.subs[p]) + [w.m];
    } else {
      assert Distinct(s.chans[c].proxies);
      DistanceKept(s, s', t, p);
    }
  }

  /** The lock of a channel that a subscriber holds or acquires is nobody's walk. */
  lemma SubscriberChannel(s: State, t: nat, c: nat)
    requires ChanLocks(s) && CanGo(s, t) && s.threads[t].Subscribing? && c < |s.chans|
    requires s.threads[t].s.SLockChan? || s.threads[t].s.SInsert? || s.threads[t].s.SUnlockChan?
    requires s.threads[t].s.c == c
    ensures Served(s, c) == |s.chans[c].proxies|
    ensures c < |GoStep(s, t).chans| && Served(GoStep(s, t), c) == |GoStep(s, t).chans[c].proxies|
  {
    if !s.threads[t].s.SLockChan? {
      assert HeldChan(s.threads[t]) == Some(c) && s.chans[c].lock == HeldBy(t);
    }
  }

  lemma CaughtUpSubscriber(s: State, t: nat, c: nat, k: nat)
    requires Structure(s) && Order(s) && CanGo(s, t) && s.threads[t].Subscribing?
    requires s.threads[t].s.SLockChan? || s.threads[t].s.SInsert? || s.threads[t].s.SUnlockChan?
    requires s.threads[t].s.c == c && c < |s.chans| && c < |GoStep(s, t).chans| && k < |GoStep(s, t).chans[c].proxies|
    ensures CaughtUpAt(GoStep(s, t), c, k)
  {
    GoEffect(s, t);
    SubscriberChannel(s, t, c);
    assert CallState(s, s.threads[t]);
    if k < |s.chans[c].proxies| {
      assert CaughtUpAt(s, c, k) && EntryOk(s, c, k);
      CaughtUpBeside(s, GoStep(s, t), t, c, k);
    } else {
      assert HandleOk(s, s.threads[t].p);
      CaughtUpNewcomer(s, GoStep(s, t), t, c);
    }
  }

  lemma CaughtUpBeside(s: State, s': State, t: nat, c: nat, k: nat)
    requires Effect(s, s', t) && s.threads[t].Subscribing? && c < |s.chans| && k < |s.chans[c].proxies| && CaughtUpAt(s, c, k)
    requires Served(s, c) == |s.chans[c].proxies| && Served(s', c) == |s'.chans[c].proxies|
    requires s.threads[t].s.SInsert? ==> s.chans[c].proxies[k] != s.threads[t].p
    ensures k < |s'.chans[c].proxies| && CaughtUpAt(s', c, k)
  {
    DistanceKept(s, s', t, s.chans[c].proxies[k]);
  }

  /** The new entry starts at the end of the log, with an empty history. */
  lemma CaughtUpNewcomer(s: State, s': State, t: nat, c: nat)
    requires Effect(s, s', t) && s.threads[t].Subscribing? && s.threads[t].s.SInsert? && s.threads[t].s.c == c && c < |s.chans|
    requires s.threads[t].p < |s.subs| && History(s.subs[s.threads[t].p]) == []
    requires Served(s', c) == |s'.chans[c].proxies|
    ensures |s'.chans[c].proxies| == |s.chans[c].proxies| + 1 && CaughtUpAt(s', c, |s.chans[c].proxies|)
  {
    OwnHistory(s, t, s.threads[t], s.subs[s.threads[t].p]);
  }

  lemma CaughtUpLeaver(s: State, t: nat, c: nat, k: nat)
    requires Structure(s) && Order(s) && CanGo(s, t) && s.threads[t].Leaving? && UnsubOnChan(s.threads[t].u)
    requires s.threads[t].u.c == c && c < |s.chans| && c < |GoStep(s, t).chans| && k < |GoStep(s, t).chans[c].proxies|
    ensures CaughtUpAt(GoStep(s, t), c, k)
  {
    var s' := GoStep(s, t);
    var u := s.threads[t].u;
    var k0 := if u.UUnlink? && k >= u.i then k + 1 else k;
    LeaverChannel(s, t, k);
    assert CaughtUpAt(s, c, k0) && EntryOk(s, c, k0);
    GoEffect(s, t);
    DistanceKept(s, s', t, s.chans[c].proxies[k0]);
  }

  /** No walk is in progress on a channel that unsubscribe holds or acquires. */
  lemma LeaverChannel(s: State, t: nat, k: nat)
    requires ChanLocks(s) && CanGo(s, t) && s.threads[t].Leaving? && UnsubOnChan(s.threads[t].u)
    requires s.threads[t].u.c < |s.chans| && k < |GoStep(s, t).chans[s.threads[t].u.c].proxies|
    ensures var u := s.threads[t].u; var s' := GoStep(s, t); var k0 := if u.UUnlink? && k >= u.i then k + 1 else k;
            && k0 < |s.chans[u.c].proxies| && s'.chans[u.c].proxies[k] == s.chans[u.c].proxies[k0]
            && Missing(s, u.c, k0) == 0 && Missing(s', u.c, k) == 0 && s'.chans[u.c].log == s.chans[u.c].log
  {
    var u := s.threads[t].u;
    if !u.ULockChan? {
      assert HeldChan(s.threads[t]) == Some(u.c) && s.chans[u.c].lock == HeldBy(t);
    }
    assert GoStep(s, t).threads[t] == UnsubNext(s, s.threads[t].p, u);
  }

  lemma CaughtUpKept(s: State, t: nat)
    requires Structure(s) && Order(s) && CanGo(s, t)
    ensures CaughtUp(GoStep(s, t))
  {
    var s' := GoStep(s, t);
    var th := s.threads[t];
    GoEffect(s, t);
    forall c, k | 0 <= c < |s'.chans| && 0 <= k < |s'.chans[c].proxies| ensures CaughtUpAt(s', c, k) {
      if th.Worker? && (th.w.WLockChan? || Walking(th.w) || th.w.WUnlockChan?) && th.w.c == c {
        CaughtUpWorker(s, t, c, k);
      } else if th.Subscribing? && (th.s.SLockChan? || th.s.SInsert? || th.s.SUnlockChan?) && th.s.c == c {
        CaughtUpSubscriber(s, t, c, k);
      } else if th.Leaving? && UnsubOnChan(th.u) && th.u.c == c {
        CaughtUpLeaver(s, t, c, k);
      } else {
        NotHolding(s, t, c);
        CaughtUpElsewhere(s, s', t, c, k);
      }
    }
  }

  /** Channel `c` is not the one whose mutex thread `th` holds or acquires next. */
  predicate NotAt(th: Thread, c: nat) {
    && (th.Worker? && (th.w.WLockChan? || Walking(th.w) || th.w.WUnlockChan?) ==> th.w.c != c)
    && (th.Subscribing? && (th.s.SLockChan? || th.s.SInsert? || th.s.SUnlockChan?) ==> th.s.c != c)
    && (th.Leaving? && UnsubOnChan(th.u) ==> th.u.c != c)
  }

  lemma WorkerNotAtNext(s: State, t: nat, c: nat)
    requires CanGo(s, t) && s.threads[t].Worker? && NotAt(s.threads[t], c)
    ensures HeldChan(s.threads[t]) != Some(c) && HeldChan(GoStep(s, t).threads[t]) != Some(c)
  {
    assert GoStep(s, t).threads[t] == Worker(WorkerNext(s, s.threads[t].w));
  }

  lemma NotAtNext(s: State, t: nat, c: nat)
    requires CanGo(s, t) && NotAt(s.threads[t], c)
    ensures HeldChan(s.threads[t]) != Some(c) && HeldChan(GoStep(s, t).threads[t]) != Some(c)
  {
    match s.threads[t]
    case Worker(_) => WorkerNotAtNext(s, t, c);
    case Subscribing(_, _) => SubscriberNotAtNext(s, t, c);
    case Leaving(_, _) => LeaverNotAtNext(s, t, c);
    case _ => GoKind(s, t);
  }

  lemma SubscriberNotAtNext(s: State, t: nat, c: nat)
    requires CanGo(s, t) && s.threads[t].Subscribing? && NotAt(s.threads[t], c)
    ensures HeldChan(s.threads[t]) != Some(c) && HeldChan(GoStep(s, t).threads[t]) != Some(c)
  {
    assert GoStep(s, t).threads[t] == SubNext(s, s.threads[t].p, s.threads[t].s);
  }

  lemma LeaverNotAtNext(s: State, t: nat, c: nat)
    requires CanGo(s, t) && s.threads[t].Leaving? && NotAt(s.threads[t], c)
    ensures HeldChan(s.threads[t]) != Some(c) && HeldChan(GoStep(s, t).threads[t]) != Some(c)
  {
    assert GoStep(s, t).threads[t] == UnsubNext(s, s.threads[t].p, s.threads[t].u);
  }

  lemma NotHolding(s: State, t: nat, c: nat)
    requires CanGo(s, t) && Effect(s, GoStep(s, t), t)
    requires c < |GoStep(s, t).chans| && GoStep(s, t).chans[c].proxies != []
    requires NotAt(s.threads[t], c)
    ensures c < |s.chans| && HeldChan(s.threads[t]) != Some(c) && HeldChan(GoStep(s, t).threads[t]) != Some(c)
    ensures s.threads[t].Worker? && s.threads[t].w.WLockChan? ==> HeldChan(GoStep(s, t).threads[t]) == Some(s.threads[t].w.c)
    ensures |GoStep(s, t).chans[c].proxies| == |s.chans[c].proxies|
  {
    NotAtNext(s, t, c);
    if s.threads[t].Worker? {
      WorkerAcquires(s, t);
    }
  }

  // ---------------------------------------------------------------- walks

  /** While thread `u` holds a channel, no other thread touches it. */
  lemma HeldElsewhere(s: State, s': State, t: nat, u: nat)
    requires Structure(s) && Effect(s, s', t) && u < |s.threads| && u != t && HeldChan(s.threads[u]).Some?
    requires s.threads[t].Worker? && s.threads[t].w.WLockChan? ==> HeldChan(s'.threads[t]) == Some(s.threads[t].w.c)
    ensures var c := HeldChan(s.threads[u]).value;
            && c < |s.chans| && s'.chans[c].log == s.chans[c].log && s'.chans[c].proxies == s.chans[c].proxies
  {
    var c := HeldChan(s.threads[u]).value;
    assert s.chans[c].lock == HeldBy(u);
    ChannelElsewhere(s, s', t, c);
  }

  /** Only a walk of the same channel appends to its subscribers' inboxes. */
  lemma NoOtherPush(s: State, s': State, t: nat, u: nat)
    requires Structure(s) && Effect(s, s', t) && u < |s.threads| && u != t && t < |s.threads|
    requires s.threads[u].Worker? && Walking(s.threads[u].w) && AtProxy(s, s.threads[u].w)
    ensures !PushesTo(s, s.threads[t], Reached(s, s.threads[u].w))
    ensures !(s.threads[t].Subscribing? && s.threads[t].s.SInsert? && s.threads[t].p == Reached(s, s.threads[u].w))
  {
    var w := s.threads[u].w;
    var th := s.threads[t];
    assert EntryOk(s, w.c, w.i) && HeldChan(s.threads[u]) == Some(w.c);
    assert th.Worker? && th.w.WPush? && AtProxy(s, th.w) ==> HeldChan(th) == Some(th.w.c) && EntryOk(s, th.w.c, th.w.i);
    assert CallState(s, th);
  }

  lemma LastLoggedStable(s: State, s': State, t: nat, u: nat)
    requires Structure(s) && Effect(s, s', t) && u < |s.threads| && u != t && LastLogged(s, s.threads[u])
    requires s.threads[t].Worker? && s.threads[t].w.WLockChan? ==> HeldChan(s'.threads[t]) == Some(s.threads[t].w.c)
    ensures LastLogged(s', s'.threads[u])
  {
    var th := s.threads[u];
    if th.Worker? && (Walking(th.w) || th.w.WUnlockChan?) {
      HeldElsewhere(s, s', t, u);
    }
  }

  lemma PushReadyStable(s: State, s': State, t: nat, u: nat)
    requires Structure(s) && Effect(s, s', t) && u < |s.threads| && u != t && PushReady(s, s.threads[u])
    requires s.threads[t].Worker? && s.threads[t].w.WLockChan? ==> HeldChan(s'.threads[t]) == Some(s.threads[t].w.c)
    ensures PushReady(s', s'.threads[u])
  {
    var th := s.threads[u];
    if th.Worker? && th.w.WPush? {
      HeldElsewhere(s, s', t, u);
      NoOtherPush(s, s', t, u);
      DistanceKept(s, s', t, Reached(s, th.w));
    }
  }

  lemma CallerStaysCaller(s: State, t: nat)
    requires CanGo(s, t) && !s.threads[t].Worker?
    ensures !GoStep(s, t).threads[t].Worker?
  {
    GoKind(s, t);
  }

  lemma LastLoggedOwn(s: State, t: nat)
    requires CanGo(s, t) && s.threads[t].Worker? && LastLogged(s, s.threads[t])
    ensures LastLogged(GoStep(s, t), GoStep(s, t).threads[t])
  {
    var w := s.threads[t].w;
    assert GoStep(s, t).threads[t] == Worker(WorkerNext(s, w));
    match w
    case WLockChan(m, c) => assert GoStep(s, t).chans[c].log == s.chans[c].log + [m];
    case WUnlockChan(_, _) =>
    case WLookup(_) =>
    case WCreate(_) =>
    case WAt(_, _, _) => assert GoStep(s, t).chans == s.chans;
    case WCopy(_, _, _) => assert GoStep(s, t).chans == s.chans;
    case WPush(_, _, _) => assert GoStep(s, t).chans == s.chans;
    case WSignal(_, _, _) => assert GoStep(s, t).chans == s.chans;
    case _ =>
  }

  lemma PushReadyOwn(s: State, t: nat)
    requires CanGo(s, t) && s.threads[t].Worker? && ChanLocks(s) && CaughtUp(s)
    ensures PushReady(GoStep(s, t), GoStep(s, t).threads[t])
  {
    var w := s.threads[t].w;
    assert GoStep(s, t).threads[t] == Worker(WorkerNext(s, w));
    if w.WCopy? {
      assert CaughtUpAt(s, w.c, w.i);
      assert HeldChan(s.threads[t]) == Some(w.c) && s.chans[w.c].lock == HeldBy(t);
    }
  }

  lemma WorkerAcquires(s: State, t: nat)
    requires CanGo(s, t) && s.threads[t].Worker?
    ensures s.threads[t].w.WLockChan? ==> HeldChan(GoStep(s, t).threads[t]) == Some(s.threads[t].w.c)
  {
    assert GoStep(s, t).threads[t] == Worker(WorkerNext(s, s.threads[t].w));
  }

  lemma WalksKept(s: State, t: nat)
    requires Structure(s) && Order(s) && CanGo(s, t)
    ensures Walks(GoStep(s, t))
  {
    var s' := GoStep(s, t);
    GoEffect(s, t);
    if s.threads[t].Worker? {
      LastLoggedOwn(s, t);
      PushReadyOwn(s, t);
      WorkerAcquires(s, t);
    } else {
      CallerStaysCaller(s, t);
    }
    forall u | 0 <= u < |s'.threads| && u != t ensures WalkOk(s', s'.threads[u]) {
      LastLoggedStable(s, s', t, u);
      PushReadyStable(s, s', t, u);
    }
  }

  lemma GoKeepsOrder(s: State, t: nat)
    requires Structure(s) && Order(s) && CanGo(s, t)
    ensures Order(GoStep(s, t))
  {
    GoEffect(s, t);
    SegmentsKept(s, GoStep(s, t), t);
    CaughtUpKept(s, t);
    WalksKept(s, t);
  }

  // ---------------------------------------------------------------- calls that begin, spurious wake-ups, teardown

  /** A step outside channels, logs and inboxes. */
  ghost predicate Outside(s: State, s': State, t: nat) {
    && t < |s.threads| == |s'.threads| && s'.chans == s.chans && |s.subs| <= |s'.subs|
    && !s.threads[t].Worker? && !s'.threads[t].Worker?
    && (forall u :: 0 <= u < |s.threads| && u != t ==> s'.threads[u] == s.threads[u])
    && (forall p :: 0 <= p < |s.subs| ==>
          && History(s'.subs[p]) == History(s.subs[p]) && s'.subs[p].join == s.subs[p].join
          && s'.subs[p].active == s.subs[p].active && s'.subs[p].chan == s.subs[p].chan && s'.subs[p].life == s.subs[p].life)
    && (forall p :: |s.subs| <= p < |s'.subs| ==> s'.subs[p].life.Private? && History(s'.subs[p]) == [])
  }

  lemma OutsideKeepsOrder(s: State, s': State, t: nat)
    requires Structure(s) && Order(s) && Outside(s, s', t)
    ensures Order(s')
  {
    forall p | 0 <= p < |s'.subs| ensures SegmentOk(s', p) {
      if p < |s.subs| {
        assert SegmentOk(s, p);
      }
    }
    forall c, k | 0 <= c < |s'.chans| && 0 <= k < |s'.chans[c].proxies| ensures CaughtUpAt(s', c, k) {
      assert CaughtUpAt(s, c, k);
      assert Served(s', c) == Served(s, c);
    }
    forall u | 0 <= u < |s'.threads| ensures WalkOk(s', s'.threads[u]) {
      assert WalkOk(s, s.threads[u]);
    }
  }

  lemma BeginKeepsOrder(s: State, t: nat, op: Op)
    requires Structure(s) && Order(s) && CanBegin(s, t, op)
    ensures Order(BeginStep(s, t, op))
  {
    OutsideKeepsOrder(s, BeginStep(s, t, op), t);
  }

  lemma TeardownKeepsOrder(s: State)
    requires Structure(s) && Order(s) && Enabled(s, Teardown)
    ensures Order(Apply(s, Teardown))
  {
    var s' := Apply(s, Teardown);
    forall p | 0 <= p < |s'.subs| ensures SegmentOk(s', p) {
      assert SegmentOk(s, p) && HandleOk(s, p);
      TeardownSegment(s, p);
    }
    TeardownWalks(s);
  }

  lemma TeardownSegment(s: State, p: nat)
    requires Enabled(s, Teardown) && p < |s.subs| && SegmentOk(s, p)
    ensures SegmentOk(Apply(s, Teardown), p)
  {
  }

  lemma TeardownWalks(s: State)
    requires Enabled(s, Teardown)
    ensures Walks(Apply(s, Teardown)) && CaughtUp(Apply(s, Teardown))
  {
    var s' := Apply(s, Teardown);
    forall u | 0 <= u < |s'.threads| ensures WalkOk(s', s'.threads[u]) {
      assert Quiet(s.threads[u]);
    }
  }

  lemma OrderKept(s: State, step: Step)
    requires Structure(s) && Order(s) && Enabled(s, step)
    ensures Order(Apply(s, step))
  {
    match step
    case Go(t) => GoKeepsOrder(s, t);
    case Begin(t, op) => BeginKeepsOrder(s, t, op);
    case Spurious(t) => OutsideKeepsOrder(s, Apply(s, step), t);
    case Teardown => TeardownKeepsOrder(s);
  }
}
