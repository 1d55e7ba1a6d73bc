/** What holds of subscriptions, receivers and messages in every reachable state of the sessions. */
module SessionTheorems {
  import opened Prelude
  import opened DetachedList
  import opened Session
  import opened SessionInvariant

  // ---- Ownership ---------------------------------------------------------------------------------

  /** A client thread points at subscription `k`. */
  predicate PointsAt(s: State, k: nat, c: nat) {
    c < |s.clients| && s.clients[c].subscription == Some(k)
  }

  /** A client thread holds subscription `k`: it points at it, and is not past `_add_detached` in a DETACH. */
  predicate Holds(s: State, k: nat, c: nat) {
    PointsAt(s, k, c) && !s.clients[c].phase.Answering?
  }

  predicate ShelvedAt(s: State, k: nat, j: nat) {
    j < |s.detached| && s.detached[j].subscription == k
  }

  /**
    Every subscription is held by a client, or detached, or disposed of: exactly one of the three, by
    one client, in one place, once. Another client may point at it only from inside a DETACH that has
    put it on the list, and then runs no receiver.
   */
  lemma OwnedOnce(s: State, k: nat)
    requires Reachable(s) && k < |s.subs|
    ensures (exists c :: Holds(s, k, c)) || (exists j :: ShelvedAt(s, k, j)) || s.subs[k].disposals == 1
    ensures s.subs[k].disposals <= 1
    ensures forall c :: Holds(s, k, c) ==> s.subs[k].disposals == 0 && !exists j :: ShelvedAt(s, k, j)
    ensures forall j: nat :: ShelvedAt(s, k, j) ==> s.subs[k].disposals == 0 && s.detached[j].id == k + 1
    ensures forall c, d :: Holds(s, k, c) && Holds(s, k, d) ==> c == d
    ensures forall i, j :: ShelvedAt(s, k, i) && ShelvedAt(s, k, j) ==> i == j
    ensures forall c: nat :: PointsAt(s, k, c) && !Holds(s, k, c) ==> s.clients[c].receiver.Off?
  {
    ReachableInv(s);
    assert OwnerOk(s, k);
    var owner := s.subs[k].owner;
    forall c: nat | PointsAt(s, k, c)
      ensures Holds(s, k, c) ==> owner == Held(c)
      ensures !Holds(s, k, c) ==> s.clients[c].receiver.Off?
    {
      assert ClientOk(s, c);
    }
    forall j: nat | ShelvedAt(s, k, j) ensures owner == Shelved && s.detached[j].id == k + 1 {
    }
    if owner.Held? {
      assert Holds(s, k, owner.client);
    } else if owner.Shelved? {
      var j :| 0 <= j < |s.detached| && s.detached[j].subscription == k;
      assert ShelvedAt(s, k, j);
    }
  }

  /** Once the server is closed, every subscription that any client ever made has been disposed of exactly once. */
  lemma NothingLeaks(s: State, k: nat)
    requires Reachable(s) && s.down && k < |s.subs|
    ensures s.subs[k].disposals == 1
  {
    ReachableClosed(s);
    OwnedOnce(s, k);
    ReachableInv(s);
    forall c: nat | c < |s.clients| ensures !Holds(s, k, c) {
      assert ClientOk(s, c);
    }
  }

  /** A closed server has no client and an empty shelf. */
  predicate Closed(s: State) {
    s.down ==> s.detached == [] && forall c :: 0 <= c < |s.clients| ==> s.clients[c].phase.Gone?
  }

  lemma StepClosed(s: State, step: Step)
    requires Inv(s) && Closed(s) && Enabled(s, step)
    ensures Closed(Apply(s, step))
  {
    assert OfClient(step) ==> ClientOk(s, step.c);
  }

  lemma {:induction false} RunClosed(s: State, steps: seq<Step>, s': State)
    requires Inv(s) && Closed(s) && Run(s, steps, s')
    ensures Closed(s')
    decreases |steps|
  {
    if steps != [] {
      StepClosed(s, steps[0]);
      StepInv(s, steps[0]);
      RunClosed(Apply(s, steps[0]), steps[1..], s');
    }
  }

  lemma ReachableClosed(s: State)
    requires Reachable(s)
    ensures Closed(s)
  {
    var key: Option<string>, steps: seq<Step> :| Run(Init(key), steps, s);
    RunClosed(Init(key), steps, s);
  }

  // ---- Receivers ---------------------------------------------------------------------------------

  /**
    A subscription never has two receiver threads, a session in service always has its own, and a
    receiver only runs for a subscription that its client holds and nobody has disposed of. This is
    the one consumer per subscription that the broker's receive relies on.
   */
  lemma OneReceiver(s: State, c: nat)
    requires Reachable(s) && c < |s.clients|
    ensures !s.clients[c].receiver.Off? ==>
      && s.clients[c].subscription.Some?
      && Holds(s, s.clients[c].subscription.value, c)
      && s.clients[c].subscription.value < |s.subs|
      && s.subs[s.clients[c].subscription.value].disposals == 0
      && forall d :: 0 <= d < |s.clients| && d != c && !s.clients[d].receiver.Off? ==>
           s.clients[d].subscription != s.clients[c].subscription
    ensures s.clients[c].phase.Serving? && s.clients[c].subscription.Some? ==> !s.clients[c].receiver.Off?
  {
    ReachableInv(s);
    assert ClientOk(s, c);
    if !s.clients[c].receiver.Off? {
      var k := s.clients[c].subscription.value;
      assert OwnerOk(s, k);
      forall d | 0 <= d < |s.clients| && d != c && !s.clients[d].receiver.Off?
        ensures s.clients[d].subscription != Some(k)
      {
        assert ClientOk(s, d);
      }
    }
  }

  /**
    When a client's exit disposes of a subscription, its own receiver has ended, nobody else holds it or
    runs a receiver on it, and whoever still points at it is in a DETACH about to read its id.
   */
  lemma DisposedQuietly(s: State, step: Step, d: nat)
    requires Reachable(s) && Enabled(s, step) && Disposes(s, step)
    requires PointsAt(s, s.clients[step.c].subscription.value, d)
    ensures s.clients[d].receiver.Off? && (d == step.c || s.clients[d].phase.Answering?)
    ensures s.clients[step.c].subscription.value < |s.subs|
      && s.subs[s.clients[step.c].subscription.value].disposals == 0
  {
    ReachableInv(s);
    assert ClientOk(s, d) && ClientOk(s, step.c);
    assert OwnerOk(s, s.clients[step.c].subscription.value);
  }

  // ---- Messages ----------------------------------------------------------------------------------

  /** The messages that reached a socket. */
  ghost function WrittenOf(taken: seq<Taken>): seq<string> {
    if taken == [] then [] else (if taken[0].written then [taken[0].message] else []) + WrittenOf(taken[1..])
  }

  /**
    Over any number of sessions, what the receivers have taken, then the message one of them may hold,
    then the inbox, is everything delivered on the channel since the subscription was made, up to now or
    up to its disposal: no gap, no repeat, in order.
   */
  lemma HistorySpansSessions(s: State, k: nat)
    requires Reachable(s) && k < |s.subs|
    ensures
      var sub := s.subs[k];
      var stop := if sub.closed.Some? then sub.closed.value else |s.log|;
      && sub.join <= stop <= |s.log|
      && Messages(sub.taken) + InHand(s, k) + sub.inbox == Delivered(s.log, sub.channel, sub.join, stop)
    ensures s.subs[k].closed.None? <==> s.subs[k].disposals == 0
  {
    ReachableInv(s);
    assert HistoryOk(s, k) && OwnerOk(s, k);
  }

  lemma {:induction false} WrittenLength(taken: seq<Taken>)
    ensures |WrittenOf(taken)| <= |taken|
    ensures |WrittenOf(taken)| == |taken| ==> forall i :: 0 <= i < |taken| ==> taken[i].written
  {
    if taken != [] {
      WrittenLength(taken[1..]);
      assert forall i :: 0 < i < |taken| ==> taken[i] == taken[1..][i - 1];
    }
  }

  /** The sockets carried everything that was taken exactly when no write failed. */
  lemma {:induction false} WrittenExactly(taken: seq<Taken>)
    ensures WrittenOf(taken) == Messages(taken) <==> forall i :: 0 <= i < |taken| ==> taken[i].written
  {
    WrittenLength(taken);
    if taken != [] && forall i :: 0 <= i < |taken| ==> taken[i].written {
      WrittenExactly(taken[1..]);
      assert Messages(taken) == [taken[0].message] + Messages(taken[1..]);
    }
  }

  /** No message on its way holds a NUL: `publish` cuts the content at the first one. */
  ghost predicate NulFree(s: State) {
    && (forall i :: 0 <= i < |s.pending| ==> '\0' !in s.pending[i].content)
    && (forall i :: 0 <= i < |s.log| ==> '\0' !in s.log[i].content)
  }

  lemma {:induction false} RunNulFree(s: State, steps: seq<Step>, s': State)
    requires NulFree(s) && Run(s, steps, s')
    ensures NulFree(s')
    decreases |steps|
  {
    if steps != [] {
      StepNulFree(s, steps[0]);
      RunNulFree(Apply(s, steps[0]), steps[1..], s');
    }
  }

  lemma StepNulFree(s: State, step: Step)
    requires NulFree(s) && Enabled(s, step)
    ensures NulFree(Apply(s, step))
  {
  }

  /** So every content in an inbox, in a receiver's hand or taken is the C string that `strlen` measures. */
  lemma ContentsAreStrings(s: State, k: nat, m: string)
    requires Reachable(s) && k < |s.subs|
    requires m in Messages(s.subs[k].taken) + InHand(s, k) + s.subs[k].inbox
    ensures '\0' !in m
  {
    var key: Option<string>, steps: seq<Step> :| Run(Init(key), steps, s);
    RunNulFree(Init(key), steps, s);
    ReachableInv(s);
    assert HistoryOk(s, k);
    DeliveredFrom(s.log, s.subs[k].channel, s.subs[k].join, Reach(s, k), m);
  }

  lemma {:induction false} DeliveredFrom(log: seq<Posting>, channel: string, start: nat, stop: nat, m: string)
    requires start <= stop <= |log| && m in Delivered(log, channel, start, stop)
    ensures exists i :: start <= i < stop && log[i] == Posting(channel, m)
    decreases stop
  {
    if log[stop - 1] != Posting(channel, m) {
      DeliveredFrom(log, channel, start, stop - 1, m);
    }
  }

  // ---- Finding a subscription again --------------------------------------------------------------

  /** ATTACH by a client without a subscription succeeds exactly when the number names a detached one. */
  lemma AttachFinds(s: State, step: Step)
    requires Reachable(s) && Enabled(s, step)
    requires Asks(s, step, Attach) && s.clients[step.c].subscription.None?
    ensures Attaches(s, step) <==> exists k: nat, j: nat :: ShelvedAt(s, k, j) && step.request.number == k + 1
  {
    ReachableInv(s);
    NumberOnShelf(s, step.request.number);
  }

  lemma NumberOnShelf(s: State, number: nat)
    requires ShelfOk(s)
    ensures FirstAt(s.detached, number) < |s.detached| <==> exists k: nat, j: nat :: ShelvedAt(s, k, j) && number == k + 1
  {
    var i := FirstAt(s.detached, number);
    if i < |s.detached| {
      assert ShelvedAt(s, s.detached[i].subscription, i);
    } else {
      forall k: nat, j: nat | ShelvedAt(s, k, j) ensures number != k + 1 {
        assert s.detached[j].id == k + 1;
      }
    }
  }

  /** A shelved subscription, and what it has kept since `before`. */
  ghost predicate Kept(s: State, k: nat, before: Sub) {
    && k < |s.subs| && s.subs[k].owner.Shelved?
    && s.subs[k].taken == before.taken && before.inbox <= s.subs[k].inbox
  }

  /** Along a run nobody attaches subscription `k`, and the server is not closed. */
  ghost predicate Untaken(s: State, steps: seq<Step>, k: nat)
    decreases |steps|
  {
    steps == [] ||
    (&& Enabled(s, steps[0]) && !steps[0].Close?
     && !(Attaches(s, steps[0]) && Attached(s, steps[0]) == k)
     && Untaken(Apply(s, steps[0]), steps[1..], k))
  }

  /** No step but an ATTACH that finds it or a close moves a shelved subscription, or takes from it. */
  lemma StepKept(s: State, step: Step, k: nat, before: Sub)
    requires Inv(s) && Enabled(s, step) && Kept(s, k, before) && !step.Close?
    requires !(Attaches(s, step) && Attached(s, step) == k)
    ensures Kept(Apply(s, step), k, before)
  {
    Handovers(s, step, k);
    if OfClient(step) {
      assert ClientOk(s, step.c);
    }
  }

  lemma {:induction false} RunKept(s: State, steps: seq<Step>, s': State, k: nat, before: Sub)
    requires Inv(s) && Run(s, steps, s') && Untaken(s, steps, k) && Kept(s, k, before)
    ensures Inv(s') && Kept(s', k, before)
    decreases |steps|
  {
    if steps != [] {
      StepKept(s, steps[0], k, before);
      StepInv(s, steps[0]);
      RunKept(Apply(s, steps[0]), steps[1..], s', k, before);
    }
  }

  /**
    The id of a detached subscription names it to whoever sends ATTACH with it, after any run in which
    nobody has attached it and the server has not been closed; meanwhile nothing is taken from it.
   */
  lemma IdFindsItsSubscription(s: State, k: nat, j: nat, later: seq<Step>, s': State, step: Step)
    requires Reachable(s) && ShelvedAt(s, k, j) && Run(s, later, s') && Untaken(s, later, k)
    requires Enabled(s', step) && Asks(s', step, Attach) && s'.clients[step.c].subscription.None?
    requires step.request.number == k + 1
    ensures Attaches(s', step) && Attached(s', step) == k
    ensures k < |s.subs| && k < |s'.subs|
      && s'.subs[k].taken == s.subs[k].taken && s.subs[k].inbox <= s'.subs[k].inbox
  {
    ReachableInv(s);
    RunKept(s, later, s', k, s.subs[k]);
    ShelvedFound(s', k);
  }

  /** The search of ATTACH finds a shelved subscription by its number. */
  lemma ShelvedFound(s: State, k: nat)
    requires Inv(s) && k < |s.subs| && s.subs[k].owner.Shelved?
    ensures FirstAt(s.detached, k + 1) < |s.detached|
    ensures s.detached[FirstAt(s.detached, k + 1)].subscription == k
  {
    assert OwnerOk(s, k);
    var j :| 0 <= j < |s.detached| && s.detached[j].subscription == k;
    assert s.detached[j].id == k + 1;
  }
}
