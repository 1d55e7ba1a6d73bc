/**
  The broker inside the session model is the atomic broker, the one that the threads of the broker
  implement: each step of a session is one of its steps, and a receiver may take, or may just miss,
  whatever it allows.
 */
module SessionRefinement {
  import opened Prelude
  import opened DetachedList
  import opened Session
  import opened SessionInvariant
  import opened SessionTheorems
  import opened SessionWindows
  import AtomicBroker

  type Atomic = AtomicBroker.State<string>

  /** Everything delivered on a channel. */
  ghost function All(s: State, channel: string): seq<string> {
    Delivered(s.log, channel, 0, |s.log|)
  }

  ghost function View(s: State, k: nat): AtomicBroker.Subscriber
    requires k < |s.subs| && s.subs[k].join <= |s.log|
  {
    var sub := s.subs[k];
    AtomicBroker.Subscriber(sub.channel, |Delivered(s.log, sub.channel, 0, sub.join)|, |Out(s, k)|, sub.closed.None?)
  }

  ghost predicate Matches(s: State, a: Atomic) {
    && (forall name :: AtomicBroker.Log(a, name) == All(s, name))
    && (forall k: nat :: k in a.subs <==> k < |s.subs|)
    && (forall k: nat :: k < |s.subs| ==> s.subs[k].join <= |s.log| && k in a.subs && a.subs[k] == View(s, k))
  }

  /** The subscription whose message a step takes out of the inbox. */
  predicate Takes(s: State, step: Step, k: nat) {
    && step.Receive? && step.c < |s.clients| && s.clients[step.c].subscription == Some(k)
    && s.clients[step.c].receiver.Taking? && k < |s.subs| && Arrived(s.subs[k].inbox, step.ok) > 0
  }

  function Label(s: State, step: Step): AtomicBroker.Step<string>
    requires Enabled(s, step)
  {
    if step.Deliver? then AtomicBroker.Append(s.pending[step.task].channel, s.pending[step.task].content)
    else if Subscribes(s, step) then AtomicBroker.Join(|s.subs|, step.request.argument)
    else if Disposes(s, step) then AtomicBroker.Close(s.clients[step.c].subscription.value)
    else if step.Close? then AtomicBroker.CloseAll
    else if step.Receive? && Takes(s, step, s.clients[step.c].subscription.value) then
      AtomicBroker.Take(s.clients[step.c].subscription.value, s.subs[s.clients[step.c].subscription.value].inbox[0])
    else AtomicBroker.Nothing
  }

  // ---- What a step does to one subscriber --------------------------------------------------------

  lemma StepFixes(s: State, step: Step, k: nat)
    requires Enabled(s, step) && k < |s.subs|
    ensures k < |Apply(s, step).subs|
    ensures Apply(s, step).subs[k].channel == s.subs[k].channel && Apply(s, step).subs[k].join == s.subs[k].join
    ensures s.log <= Apply(s, step).log
  {
  }

  /** The next message of a subscriber's log is the head of its inbox. */
  lemma HeadIsNext(s: State, k: nat, c: nat)
    requires Inv(s) && Holds(s, k, c) && k < |s.subs| && s.subs[k].inbox != []
    ensures s.subs[k].join <= |s.log|
    ensures
      var sub := s.subs[k];
      var at := |Delivered(s.log, sub.channel, 0, sub.join)| + |Out(s, k)|;
      at < |All(s, sub.channel)| && All(s, sub.channel)[at] == sub.inbox[0]
  {
    HeldHistory(s, k, c);
    var sub := s.subs[k];
    DeliveredConcat(s.log, sub.channel, 0, sub.join, |s.log|);
    var a, b := Delivered(s.log, sub.channel, 0, sub.join), Out(s, k);
    assert All(s, sub.channel) == a + (b + sub.inbox);
    assert (a + (b + sub.inbox))[|a| + |b|] == sub.inbox[0];
  }

  lemma LabelEnabled(s: State, step: Step, a: Atomic)
    requires Inv(s) && Enabled(s, step) && Matches(s, a)
    ensures AtomicBroker.Enabled(a, Label(s, step))
  {
    if OfClient(step) {
      assert ClientOk(s, step.c);
    }
    if Disposes(s, step) {
      assert OwnerOk(s, s.clients[step.c].subscription.value);
    } else if step.Receive? && Takes(s, step, s.clients[step.c].subscription.value) {
      var k := s.clients[step.c].subscription.value;
      assert OwnerOk(s, k);
      HeadIsNext(s, k, step.c);
    }
  }

  lemma AllFollows(s: State, step: Step, name: string)
    requires Enabled(s, step)
    ensures All(Apply(s, step), name) == All(s, name) +
      if step.Deliver? && s.pending[step.task].channel == name then [s.pending[step.task].content] else []
  {
    if step.Deliver? {
      DeliveredPrefix(s.log, [s.pending[step.task]], name, 0, |s.log|);
    }
  }

  lemma BeforeJoinKept(s: State, step: Step, k: nat)
    requires Enabled(s, step) && k < |s.subs| && s.subs[k].join <= |s.log|
    ensures s.subs[k].join <= |Apply(s, step).log|
    ensures Delivered(Apply(s, step).log, s.subs[k].channel, 0, s.subs[k].join)
      == Delivered(s.log, s.subs[k].channel, 0, s.subs[k].join)
  {
    if step.Deliver? {
      DeliveredPrefix(s.log, [s.pending[step.task]], s.subs[k].channel, 0, s.subs[k].join);
    }
  }

  lemma OutFollows(s: State, step: Step, k: nat)
    requires Inv(s) && Enabled(s, step) && k < |s.subs|
    ensures k < |Apply(s, step).subs| && |Out(Apply(s, step), k)| == |Out(s, k)| + if Takes(s, step, k) then 1 else 0
  {
    Handovers(s, step, k);
    if step.Receive? {
      ReceiveCounts(s, step, k);
    } else {
      StepInHand(s, step, k);
    }
  }

  lemma ReceiveCounts(s: State, step: Step, k: nat)
    requires Inv(s) && Enabled(s, step) && k < |s.subs| && step.Receive?
    ensures |Out(Apply(s, step), k)| == |Out(s, k)| + if Takes(s, step, k) then 1 else 0
  {
    var s' := Apply(s, step);
    assert OwnerOk(s, k) && ClientOk(s, step.c);
    Handovers(s, step, k);
    Transfers(s, step, step.c);
    if s.clients[step.c].subscription == Some(k) {
      assert s.subs[k].owner == Held(step.c);
    } else {
      assert InHand(s', k) == InHand(s, k);
    }
  }

  /** A subscriber closes when its subscription is disposed of, and a closing server closes them all. */
  lemma ClosedFollows(s: State, step: Step, k: nat)
    requires Inv(s) && Enabled(s, step) && k < |s.subs|
    ensures k < |Apply(s, step).subs|
    ensures Apply(s, step).subs[k].closed.None? <==>
      && s.subs[k].closed.None? && !step.Close?
      && !(Disposes(s, step) && s.clients[step.c].subscription == Some(k))
  {
    Handovers(s, step, k);
    assert OwnerOk(s, k);
    ClosesShelved(s, k);
    if s.subs[k].owner.Held? {
      assert ClientOk(s, s.subs[k].owner.client);
    }
  }

  lemma ViewFollows(s: State, step: Step, k: nat)
    requires Inv(s) && Enabled(s, step) && k < |s.subs| && s.subs[k].join <= |s.log|
    ensures k < |Apply(s, step).subs| && Apply(s, step).subs[k].join <= |Apply(s, step).log|
    ensures
      var v, v' := View(s, k), View(Apply(s, step), k);
      v' == v.(taken := v.taken + (if Takes(s, step, k) then 1 else 0),
               open := v.open && !step.Close? && !(Disposes(s, step) && s.clients[step.c].subscription == Some(k)))
  {
    StepFixes(s, step, k);
    BeforeJoinKept(s, step, k);
    OutFollows(s, step, k);
    ClosedFollows(s, step, k);
  }

  /** A new subscriber joins at the end of the log, with nothing taken. */
  lemma NewView(s: State, step: Step)
    requires Enabled(s, step) && Subscribes(s, step)
    ensures
      var s' := Apply(s, step);
      && |s'.subs| == |s.subs| + 1 && s'.log == s.log && s'.subs[|s.subs|].join == |s.log|
      && View(s', |s.subs|) == AtomicBroker.Subscriber(step.request.argument, |All(s, step.request.argument)|, 0, true)
  {
  }

  // ---- The simulation ----------------------------------------------------------------------------

  /** Every step of a session is the atomic step of its label. */
  lemma StepSimulates(s: State, step: Step, a: Atomic)
    requires Inv(s) && Enabled(s, step) && Matches(s, a)
    ensures AtomicBroker.Enabled(a, Label(s, step)) && Matches(Apply(s, step), AtomicBroker.Apply(a, Label(s, step)))
  {
    var s' := Apply(s, step);
    LabelEnabled(s, step, a);
    var a' := AtomicBroker.Apply(a, Label(s, step));
    forall name ensures AtomicBroker.Log(a', name) == All(s', name) {
      AllFollows(s, step, name);
      AtomicBroker.LogMoves(a, Label(s, step), name);
    }
    SubsCount(s, step);
    forall k: nat
      ensures k in a'.subs <==> k < |s'.subs|
      ensures k < |s'.subs| ==> s'.subs[k].join <= |s'.log| && k in a'.subs && a'.subs[k] == View(s', k)
    {
      AtomicBroker.SubscriberMoves(a, Label(s, step), k);
      if k < |s.subs| {
        ViewFollows(s, step, k);
        MovedView(s, step, View(s, k), k);
      } else if k < |s'.subs| {
        NewView(s, step);
      }
    }
  }

  lemma SubsCount(s: State, step: Step)
    requires Enabled(s, step)
    ensures |Apply(s, step).subs| == |s.subs| + if Subscribes(s, step) then 1 else 0
  {
  }

  /** The atomic step of a label moves a subscriber as the session's step moves its view. */
  lemma MovedView(s: State, step: Step, v: AtomicBroker.Subscriber, k: nat)
    requires Enabled(s, step)
    ensures AtomicBroker.Moved(v, Label(s, step), k)
      == v.(taken := v.taken + (if Takes(s, step, k) then 1 else 0),
            open := v.open && !step.Close? && !(Disposes(s, step) && s.clients[step.c].subscription == Some(k)))
  {
  }

  lemma {:induction false} RunSimulates(s: State, steps: seq<Step>, s': State, a: Atomic)
    returns (moves: seq<AtomicBroker.Step<string>>, a': Atomic)
    requires Inv(s) && Run(s, steps, s') && Matches(s, a)
    ensures |moves| == |steps| && AtomicBroker.Run(a, moves, a') && Matches(s', a')
    decreases |steps|
  {
    if steps == [] {
      moves, a' := [], a;
    } else {
      StepSimulates(s, steps[0], a);
      StepInv(s, steps[0]);
      var move := Label(s, steps[0]);
      var rest;
      rest, a' := RunSimulates(Apply(s, steps[0]), steps[1..], s', AtomicBroker.Apply(a, move));
      moves := [move] + rest;
      assert moves[1..] == rest;
    }
  }

  /** Every run of the sessions, step for step, is a run of the atomic broker. */
  lemma Refines(key: Option<string>, steps: seq<Step>, s: State)
    returns (moves: seq<AtomicBroker.Step<string>>, a: Atomic)
    requires Run(Init(key), steps, s)
    ensures |moves| == |steps| && AtomicBroker.Run(AtomicBroker.Empty(), moves, a) && Matches(s, a)
  {
    moves, a := RunSimulates(Init(key), steps, s, AtomicBroker.Empty());
  }

  /**
    And the sessions forbid nothing that the atomic broker allows: whatever a receiver about to take may
    take there, it takes here, if it has arrived.
   */
  lemma TakesWhatIsAllowed(s: State, c: nat, k: nat, m: string, a: Atomic)
    requires Reachable(s) && Matches(s, a) && Holds(s, k, c) && s.clients[c].receiver.Taking?
    requires AtomicBroker.Enabled(a, AtomicBroker.Take(k, m))
    ensures Enabled(s, Receive(c, true)) && Label(s, Receive(c, true)) == AtomicBroker.Take(k, m)
    ensures |Inbox(s, k)| == 1 ==> Enabled(s, Receive(c, false)) && Label(s, Receive(c, false)) == AtomicBroker.Nothing
  {
    ReachableInv(s);
    assert ClientOk(s, c) && OwnerOk(s, k);
    HeldHistory(s, k, c);
    var sub := s.subs[k];
    DeliveredConcat(s.log, sub.channel, 0, sub.join, |s.log|);
    assert sub.inbox != [];
    HeadIsNext(s, k, c);
  }
}
