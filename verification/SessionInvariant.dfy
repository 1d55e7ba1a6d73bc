/** What every step of the sessions keeps: who owns a subscription, and what has become of its messages. */
module SessionInvariant {
  import opened Prelude
  import opened DetachedList
  import opened Session

  // ---- The invariant -----------------------------------------------------------------------------

  /** What a client thread's own fields promise, whoever owns its subscription. */
  predicate PhaseOk(x: Client) {
    && (x.subscription.Some? ==> x.authenticated && !x.detached && !x.phase.Gone?)
    && (x.subscription.None? || x.phase.Answering? ==> x.receiver.Off?)
    && ((x.phase.Serving? || x.phase.Counting?) && x.subscription.Some? ==> x.active && !x.receiver.Off?)
    && (x.phase.Counting? || x.phase.Detaching? || x.phase.Answering? ==> x.subscription.Some?)
    && (x.phase.Detaching? || x.phase.Leaving? ==> !x.active)
  }

  /** A client owns the subscription it points at, except in DETACH once that is on the list. */
  predicate Owns(x: Client) {
    x.subscription.Some? && !x.phase.Answering?
  }

  /** A client thread: whose subscription it holds, and how its receiver stands to its phase. */
  ghost predicate ClientOk(s: State, c: nat)
    requires c < |s.clients|
  {
    var x := s.clients[c];
    && PhaseOk(x)
    && (x.subscription.Some? ==> x.subscription.value < |s.subs|)
    && (Owns(x) ==> s.subs[x.subscription.value].owner == Held(c))
  }

  /** A subscription's owner, seen from the subscription. */
  ghost predicate OwnerOk(s: State, k: nat)
    requires k < |s.subs|
  {
    var sub := s.subs[k];
    && (sub.owner.Held? ==>
          && sub.owner.client < |s.clients| && Owns(s.clients[sub.owner.client])
          && s.clients[sub.owner.client].subscription == Some(k))
    && (sub.owner.Shelved? ==> exists j :: 0 <= j < |s.detached| && s.detached[j].subscription == k)
    && sub.disposals == (if sub.owner.Freed? then 1 else 0)
    && (sub.closed.Some? <==> sub.owner.Freed?)
  }

  /** The detached list: ids that fit, owners that agree, nobody twice. */
  ghost predicate ShelfOk(s: State) {
    && (forall j :: 0 <= j < |s.detached| ==>
          && s.detached[j].subscription < |s.subs|
          && s.detached[j].id == s.detached[j].subscription + 1
          && s.subs[s.detached[j].subscription].owner.Shelved?)
    && (forall i, j :: 0 <= i < j < |s.detached| ==> s.detached[i].subscription != s.detached[j].subscription)
  }

  ghost function Messages(taken: seq<Taken>): (s: seq<string>)
    ensures |s| == |taken|
  {
    seq(|taken|, i requires 0 <= i < |taken| => taken[i].message)
  }

  /** The message a subscription's receiver has taken and not yet written. */
  ghost function InHand(s: State, k: nat): seq<string>
    requires k < |s.subs|
  {
    var owner := s.subs[k].owner;
    if owner.Held? && owner.client < |s.clients| && s.clients[owner.client].receiver.Writing? then
      [s.clients[owner.client].receiver.message]
    else []
  }

  /** How far into the log a subscription reaches: its end, or where it was unsubscribed. */
  ghost function Reach(s: State, k: nat): nat
    requires k < |s.subs|
  {
    if s.subs[k].closed.Some? then s.subs[k].closed.value else |s.log|
  }

  ghost predicate HistoryOk(s: State, k: nat)
    requires k < |s.subs|
  {
    var sub := s.subs[k];
    && sub.join <= Reach(s, k) <= |s.log|
    && Messages(sub.taken) + InHand(s, k) + sub.inbox == Delivered(s.log, sub.channel, sub.join, Reach(s, k))
  }

  ghost predicate Inv(s: State) {
    && (forall c :: 0 <= c < |s.clients| ==> ClientOk(s, c))
    && (forall k :: 0 <= k < |s.subs| ==> OwnerOk(s, k))
    && ShelfOk(s)
    && (forall k :: 0 <= k < |s.subs| ==> HistoryOk(s, k))
  }

  // ---- One step ----------------------------------------------------------------------------------

  /** An ATTACH that succeeds finds a shelved subscription, with the number it asked for. */
  lemma AttachedIsShelved(s: State, step: Step)
    requires Inv(s) && Attaches(s, step)
    ensures Attached(s, step) < |s.subs| && s.subs[Attached(s, step)].owner.Shelved?
    ensures step.request.number == Attached(s, step) + 1
  {
  }

  /** The subscription a client thread owns. */
  ghost function Owned(x: Client): Option<nat> {
    if Owns(x) then x.subscription else None
  }

  /** The subscription a client thread owns after a step. */
  ghost function OwnedAfter(s: State, step: Step, c: nat): Option<nat>
    requires Enabled(s, step) && c < |s.clients|
  {
    if !OfClient(step) || step.c != c then Owned(s.clients[c])
    else if Subscribes(s, step) then Some(|s.subs|)
    else if Attaches(s, step) then Some(Attached(s, step))
    else if step.Joined? then None
    else Owned(s.clients[c])
  }

  /** How often a step disposes of a subscription. */
  ghost function Gives(s: State, step: Step, k: nat): nat
    requires Enabled(s, step)
  {
    if step.Close? then Occurrences(s.detached, k)
    else if Disposes(s, step) && s.clients[step.c].subscription == Some(k) then 1
    else 0
  }

  /** The owner of a subscription after a step. */
  ghost function OwnerAfter(s: State, step: Step, k: nat): Owner
    requires Enabled(s, step) && k < |s.subs|
  {
    if Attaches(s, step) && Attached(s, step) == k then Held(step.c)
    else if Shelves(s, step) && s.clients[step.c].subscription == Some(k) then Shelved
    else if Gives(s, step, k) > 0 then Freed
    else s.subs[k].owner
  }

  lemma Transfers(s: State, step: Step, c: nat)
    requires Enabled(s, step) && c < |s.clients|
    ensures |Apply(s, step).clients| >= |s.clients|
    ensures Owned(Apply(s, step).clients[c]) == OwnedAfter(s, step, c)
    ensures !OfClient(step) || step.c != c ==> Apply(s, step).clients[c] == s.clients[c]
  {
  }

  lemma Handovers(s: State, step: Step, k: nat)
    requires Enabled(s, step) && k < |s.subs|
    ensures |Apply(s, step).subs| >= |s.subs|
    ensures Apply(s, step).subs[k].owner == OwnerAfter(s, step, k)
    ensures Apply(s, step).subs[k].disposals == s.subs[k].disposals + Gives(s, step, k)
    ensures Apply(s, step).subs[k].closed == if Gives(s, step, k) > 0 then Some(|s.log|) else s.subs[k].closed
  {
  }

  /** What is on the shelf is on it once. */
  lemma {:induction false} OccursOnce(entries: seq<Entry<nat>>, k: nat)
    requires forall i, j :: 0 <= i < j < |entries| ==> entries[i].subscription != entries[j].subscription
    ensures Occurrences(entries, k) == if exists j :: 0 <= j < |entries| && entries[j].subscription == k then 1 else 0
  {
    if entries != [] {
      var rest := entries[1..];
      OccursOnce(rest, k);
      assert forall j :: 0 <= j < |rest| ==> rest[j] == entries[j + 1];
      if exists j :: 0 <= j < |entries| && entries[j].subscription == k {
        var j :| 0 <= j < |entries| && entries[j].subscription == k;
        if j > 0 {
          assert rest[j - 1].subscription == k;
        }
      }
    }
  }

  /** Closing the server disposes of exactly the shelved subscriptions, once each. */
  lemma ClosesShelved(s: State, k: nat)
    requires Inv(s) && k < |s.subs|
    ensures Occurrences(s.detached, k) == if s.subs[k].owner.Shelved? then 1 else 0
  {
    assert OwnerOk(s, k);
    OccursOnce(s.detached, k);
  }

  /** A client keeps its subscription's ownership, whoever else moves. */
  lemma StepHolds(s: State, step: Step, c: nat)
    requires Inv(s) && Enabled(s, step) && c < |s.clients|
    ensures
      var s' := Apply(s, step);
      var held := OwnedAfter(s, step, c);
      held.Some? ==> held.value < |s'.subs| && s'.subs[held.value].owner == Held(c)
  {
    var held := OwnedAfter(s, step, c);
    if held.Some? {
      HoldsAfter(s, step, c, held.value);
      if held.value < |s.subs| {
        Handovers(s, step, held.value);
      } else {
        NewOwner(s, step);
      }
    }
  }

  lemma NewOwner(s: State, step: Step)
    requires Enabled(s, step) && Subscribes(s, step)
    ensures |Apply(s, step).subs| == |s.subs| + 1 && Apply(s, step).subs[|s.subs|].owner == Held(step.c)
  {
  }

  lemma HoldsAfter(s: State, step: Step, c: nat, k: nat)
    requires Inv(s) && Enabled(s, step) && c < |s.clients| && OwnedAfter(s, step, c) == Some(k)
    ensures k < |s.subs| ==> OwnerAfter(s, step, k) == Held(c)
    ensures k >= |s.subs| ==> k == |s.subs| && Subscribes(s, step) && step.c == c
  {
    assert ClientOk(s, c);
    if Attaches(s, step) {
      AttachedIsShelved(s, step);
    } else if OfClient(step) {
      assert ClientOk(s, step.c);
    } else if step.Close? {
      ClosesShelved(s, k);
    }
  }

  lemma ServedPhase(s: State, step: Step)
    requires step.Ask? && step.c < |s.clients| && s.clients[step.c].phase.Serving? && PhaseOk(s.clients[step.c])
    ensures PhaseOk(Served(s, step))
  {
  }

  lemma StepPhase(s: State, step: Step, c: nat)
    requires Enabled(s, step) && c < |s.clients| && PhaseOk(s.clients[c])
    ensures c < |Apply(s, step).clients| && PhaseOk(Apply(s, step).clients[c])
  {
    if step.Ask? && step.c == c {
      ServedPhase(s, step);
    }
  }

  lemma StepClient(s: State, step: Step, c: nat)
    requires Inv(s) && Enabled(s, step) && c < |Apply(s, step).clients|
    ensures ClientOk(Apply(s, step), c)
  {
    if c < |s.clients| {
      assert ClientOk(s, c);
      StepHolds(s, step, c);
      StepPhase(s, step, c);
      Transfers(s, step, c);
    }
  }

  lemma StepHeld(s: State, step: Step, k: nat)
    requires Inv(s) && Enabled(s, step) && k < |s.subs|
    ensures
      var s' := Apply(s, step);
      var owner := OwnerAfter(s, step, k);
      owner.Held? ==> owner.client < |s'.clients| && Owned(s'.clients[owner.client]) == Some(k)
  {
    assert OwnerOk(s, k);
    var owner := OwnerAfter(s, step, k);
    if owner.Held? {
      Transfers(s, step, owner.client);
      assert ClientOk(s, owner.client);
      if OfClient(step) && s.clients[step.c].subscription == Some(k) {
        HolderMoves(s, step, k);
      }
    }
  }

  /** A client that holds a subscription gives it up only by shelving or disposing of it. */
  lemma HolderMoves(s: State, step: Step, k: nat)
    requires Inv(s) && Enabled(s, step) && OfClient(step)
    requires s.clients[step.c].subscription == Some(k)
    ensures !Subscribes(s, step) && !Attaches(s, step)
    ensures step.Joined? ==> Shelves(s, step) || Disposes(s, step)
  {
    assert ClientOk(s, step.c);
  }

  lemma StepSettled(s: State, step: Step, k: nat)
    requires Inv(s) && Enabled(s, step) && k < |s.subs|
    ensures
      var sub := Apply(s, step).subs[k];
      && sub.disposals == (if OwnerAfter(s, step, k).Freed? then 1 else 0)
      && (sub.closed.Some? <==> OwnerAfter(s, step, k).Freed?)
  {
    assert OwnerOk(s, k);
    Handovers(s, step, k);
    ClosesShelved(s, k);
    if step.Joined? {
      assert ClientOk(s, step.c);
    } else if Attaches(s, step) {
      AttachedIsShelved(s, step);
    }
  }

  lemma StepOwner(s: State, step: Step, k: nat)
    requires Inv(s) && Enabled(s, step) && k < |Apply(s, step).subs|
    ensures OwnerOk(Apply(s, step), k)
  {
    if k < |s.subs| {
      Handovers(s, step, k);
      StepSettled(s, step, k);
      StepHeld(s, step, k);
      if OwnerAfter(s, step, k).Shelved? {
        StepShelved(s, step, k);
      }
    }
  }

  /** A shelved subscription is on the shelf: it was and no ATTACH took it, or it just came. */
  lemma StepShelved(s: State, step: Step, k: nat)
    requires Inv(s) && Enabled(s, step) && k < |s.subs| && OwnerAfter(s, step, k).Shelved?
    ensures exists j :: 0 <= j < |Apply(s, step).detached| && Apply(s, step).detached[j].subscription == k
  {
    var s' := Apply(s, step);
    assert OwnerOk(s, k);
    ClosesShelved(s, k);
    if Shelves(s, step) && s.clients[step.c].subscription == Some(k) {
      assert s'.detached[0].subscription == k;
    } else {
      var j :| 0 <= j < |s.detached| && s.detached[j].subscription == k;
      var j' := ShelfMoves(s, step, j);
      assert s'.detached[j'].subscription == k;
    }
  }

  /** Where an entry of the shelf is after a step that does not take it. */
  lemma ShelfMoves(s: State, step: Step, j: nat) returns (j': nat)
    requires Enabled(s, step) && !step.Close? && j < |s.detached|
    requires Attaches(s, step) ==> j != FirstAt(s.detached, step.request.number)
    ensures j' < |ShelfNext(s, step)| && ShelfNext(s, step)[j'] == s.detached[j]
  {
    if Attaches(s, step) {
      j' := DroppedKeeps(s.detached, step.request.number, j);
    } else {
      j' := if Shelves(s, step) then j + 1 else j;
    }
  }

  /** Every place on the shelf after a step was on it before, or is the newcomer in front. */
  lemma ShelfPlace(s: State, step: Step, j: nat) returns (i: int)
    requires j < |ShelfNext(s, step)|
    ensures -1 <= i < |s.detached|
    ensures i >= 0 ==> ShelfNext(s, step)[j] == s.detached[i]
    ensures i < 0 ==> j == 0 && Shelves(s, step)
    ensures Attaches(s, step) ==> i != FirstAt(s.detached, step.request.number)
    ensures i == if Attaches(s, step) then (if j < FirstAt(s.detached, step.request.number) then j else j + 1)
                 else if Shelves(s, step) then j - 1 else j
  {
    if Attaches(s, step) {
      i := DroppedPlace(s.detached, step.request.number, j);
    } else {
      i := if Shelves(s, step) then j - 1 else j;
    }
  }

  lemma StepShelfPlace(s: State, step: Step, j: nat)
    requires Inv(s) && Enabled(s, step) && j < |Apply(s, step).detached|
    ensures
      var s' := Apply(s, step);
      && s'.detached[j].subscription < |s.subs| <= |s'.subs|
      && s'.detached[j].id == s'.detached[j].subscription + 1
      && s'.subs[s'.detached[j].subscription].owner.Shelved?
  {
    var i := ShelfPlace(s, step, j);
    if i < 0 {
      assert ClientOk(s, step.c);
      Handovers(s, step, s.clients[step.c].subscription.value);
    } else {
      var k := s.detached[i].subscription;
      Handovers(s, step, k);
      if step.Joined? {
        assert ClientOk(s, step.c);
      }
    }
  }

  lemma StepShelfDistinct(s: State, step: Step, i: nat, j: nat)
    requires Inv(s) && Enabled(s, step) && i < j < |Apply(s, step).detached|
    ensures Apply(s, step).detached[i].subscription != Apply(s, step).detached[j].subscription
  {
    var a := ShelfPlace(s, step, i);
    var b := ShelfPlace(s, step, j);
    if a < 0 {
      assert ClientOk(s, step.c);
    }
  }

  lemma StepShelf(s: State, step: Step)
    requires Inv(s) && Enabled(s, step)
    ensures ShelfOk(Apply(s, step))
  {
    var s' := Apply(s, step);
    forall j | 0 <= j < |s'.detached|
      ensures s'.detached[j].subscription < |s'.subs|
        && s'.detached[j].id == s'.detached[j].subscription + 1
        && s'.subs[s'.detached[j].subscription].owner.Shelved?
    {
      StepShelfPlace(s, step, j);
    }
    forall i, j | 0 <= i < j < |s'.detached|
      ensures s'.detached[i].subscription != s'.detached[j].subscription
    {
      StepShelfDistinct(s, step, i, j);
    }
  }

  lemma ReceiverAfter(s: State, step: Step, c: nat)
    requires Enabled(s, step) && c < |s.clients| && !step.Receive?
    ensures Apply(s, step).clients[c].receiver ==
      if (Subscribes(s, step) || Attaches(s, step)) && step.c == c then Testing else s.clients[c].receiver
  {
  }

  /** Only a receiver's own steps change what it has in hand. */
  lemma StepInHand(s: State, step: Step, k: nat)
    requires Inv(s) && Enabled(s, step) && k < |s.subs| && !step.Receive?
    ensures InHand(Apply(s, step), k) == InHand(s, k)
  {
    assert OwnerOk(s, k);
    Handovers(s, step, k);
    ClosesShelved(s, k);
    var owner := s.subs[k].owner;
    if owner.Held? {
      Transfers(s, step, owner.client);
      ReceiverAfter(s, step, owner.client);
      assert ClientOk(s, owner.client);
      if OfClient(step) && step.c == owner.client {
        HolderMoves(s, step, k);
      }
    }
    if Attaches(s, step) {
      AttachedIsShelved(s, step);
      ReceiverAfter(s, step, step.c);
    } else if step.Joined? {
      assert ClientOk(s, step.c);
    }
  }

  lemma StepDeliver(s: State, step: Step, k: nat)
    requires Inv(s) && Enabled(s, step) && k < |s.subs| && step.Deliver?
    ensures HistoryOk(Apply(s, step), k)
  {
    var s' := Apply(s, step);
    var sub := s.subs[k];
    assert HistoryOk(s, k);
    StepInHand(s, step, k);
    DeliveredPrefix(s.log, [s.pending[step.task]], sub.channel, sub.join, Reach(s, k));
  }

  /** A receiver moves a message from the inbox to its hand, and from its hand to the socket. */
  lemma StepReceive(s: State, step: Step, k: nat)
    requires Inv(s) && Enabled(s, step) && k < |s.subs| && step.Receive?
    ensures HistoryOk(Apply(s, step), k)
  {
    var s' := Apply(s, step);
    assert HistoryOk(s, k) && OwnerOk(s, k);
    Handovers(s, step, k);
    var c := step.c;
    Transfers(s, step, c);
    assert ClientOk(s, c);
    if s.clients[c].subscription != Some(k) {
      assert InHand(s', k) == InHand(s, k);
    } else {
      assert s.subs[k].owner == Held(c);
      assert Messages(s'.subs[k].taken) + InHand(s', k) + s'.subs[k].inbox
        == Messages(s.subs[k].taken) + InHand(s, k) + s.subs[k].inbox;
    }
  }

  lemma StepHistory(s: State, step: Step, k: nat)
    requires Inv(s) && Enabled(s, step) && k < |Apply(s, step).subs|
    ensures HistoryOk(Apply(s, step), k)
  {
    var s' := Apply(s, step);
    if k == |s.subs| {
      Newborn(s, step);
    } else if step.Deliver? {
      StepDeliver(s, step, k);
    } else if step.Receive? {
      StepReceive(s, step, k);
    } else {
      assert HistoryOk(s, k) && OwnerOk(s, k);
      StepInHand(s, step, k);
      Handovers(s, step, k);
      ClosesShelved(s, k);
      if Disposes(s, step) && s.clients[step.c].subscription == Some(k) {
        assert ClientOk(s, step.c);
      }
    }
  }

  /** A new subscription starts with nothing, its first message still to come. */
  lemma Newborn(s: State, step: Step)
    requires Inv(s) && Enabled(s, step) && |Apply(s, step).subs| > |s.subs|
    ensures |Apply(s, step).subs| == |s.subs| + 1 && HistoryOk(Apply(s, step), |s.subs|)
  {
  }

  lemma StepInv(s: State, step: Step)
    requires Inv(s) && Enabled(s, step)
    ensures Inv(Apply(s, step))
  {
    var next := Apply(s, step);
    forall c | 0 <= c < |next.clients| ensures ClientOk(next, c) {
      StepClient(s, step, c);
    }
    forall k | 0 <= k < |next.subs| ensures OwnerOk(next, k) && HistoryOk(next, k) {
      StepOwner(s, step, k);
      StepHistory(s, step, k);
    }
    StepShelf(s, step);
  }

  lemma {:induction false} RunInv(s: State, steps: seq<Step>, s': State)
    requires Inv(s) && Run(s, steps, s')
    ensures Inv(s')
    decreases |steps|
  {
    if steps != [] {
      StepInv(s, steps[0]);
      RunInv(Apply(s, steps[0]), steps[1..], s');
    }
  }

  lemma ReachableInv(s: State)
    requires Reachable(s)
    ensures Inv(s)
  {
    var key: Option<string>, steps: seq<Step> :| Run(Init(key), steps, s);
    RunInv(Init(key), steps, s);
  }
}
