/**
  The threads, mutexes and walks of the broker implement the atomic one: every step of theirs is one of
  its steps or changes nothing that a caller can see.
 */
module BrokerRefinement {
  import opened Prelude
  import opened Broker
  import opened BrokerSteps
  import opened BrokerStructure
  import opened BrokerLists
  import opened BrokerOrder
  import opened BrokerIds
  import opened BrokerReceive
  import opened BrokerTheorems
  import AtomicBroker

  type Atomic = AtomicBroker.State<Msg>

  function View(sub: Sub): AtomicBroker.Subscriber {
    AtomicBroker.Subscriber(sub.name, sub.join, |sub.taken|, sub.active)
  }

  ghost predicate LogsMatch(s: State, a: Atomic) {
    && (forall c :: 0 <= c < |s.chans| ==> AtomicBroker.Log(a, s.chans[c].name) == s.chans[c].log)
    && (forall name :: name !in s.table ==> AtomicBroker.Log(a, name) == [])
  }

  ghost predicate SubsMatch(s: State, a: Atomic) {
    && (forall p: nat :: p in a.subs <==> p < |s.subs| && !s.subs[p].life.Private?)
    && (forall p :: p in a.subs ==> a.subs[p] == View(s.subs[p]))
  }

  ghost predicate Matches(s: State, a: Atomic) {
    LogsMatch(s, a) && SubsMatch(s, a)
  }

  /** The atomic step that a thread's step amounts to. */
  function Label(s: State, t: nat): AtomicBroker.Step<Msg>
    requires CanGo(s, t)
  {
    match s.threads[t]
    case Worker(WLockChan(m, c)) => AtomicBroker.Append(s.chans[c].name, m)
    case Subscribing(p, SInsert(_)) => AtomicBroker.Join(p, s.subs[p].name)
    case Receiving(p, r) =>
      if (r.RTake? || r.TTake?) && s.subs[p].inbox != [] then AtomicBroker.Take(p, s.subs[p].inbox[0])
      else AtomicBroker.Nothing
    case Leaving(p, u) =>
      if (u.UDeact? || u.UFree?) && s.subs[p].active then AtomicBroker.Close(p) else AtomicBroker.Nothing
    case _ => AtomicBroker.Nothing
  }

  // ---------------------------------------------------------------- one step of a thread

  lemma LabelEnabled(s: State, t: nat, a: Atomic)
    requires Inv(s) && CanGo(s, t) && Matches(s, a)
    ensures AtomicBroker.Enabled(a, Label(s, t))
  {
    var th := s.threads[t];
    assert CallState(s, th);
    if th.Receiving? && (th.r.RTake? || th.r.TTake?) && s.subs[th.p].inbox != [] {
      assert SegmentOk(s, th.p) && BornOk(s, th.p);
      TakeEnabled(s, th.p, a);
    }
  }

  lemma TakeEnabled(s: State, p: nat, a: Atomic)
    requires Matches(s, a) && p < |s.subs| && s.subs[p].life.Linked? && s.subs[p].active && s.subs[p].inbox != []
    requires SegmentOk(s, p) && s.chans[s.subs[p].chan].name == s.subs[p].name
    ensures AtomicBroker.Enabled(a, AtomicBroker.Take(p, s.subs[p].inbox[0]))
  {
    NextOfLog(s, p);
  }

  lemma LogsFollow(s: State, s': State, t: nat, a: Atomic, move: AtomicBroker.Step<Msg>)
    requires Frame(s, s', t) && TableUnique(s) && LookedUp(s, s.threads[t]) && ChanMoves(s, s', t) && LogsMatch(s, a)
    requires AtomicBroker.Enabled(a, move)
    requires s.threads[t].Worker? && s.threads[t].w.WLockChan? ==>
      s.threads[t].w.c < |s.chans| && move == AtomicBroker.Append(s.chans[s.threads[t].w.c].name, s.threads[t].w.m)
    requires !(s.threads[t].Worker? && s.threads[t].w.WLockChan?) ==> !move.Append?
    ensures LogsMatch(s', AtomicBroker.Apply(a, move))
  {
    var a' := AtomicBroker.Apply(a, move);
    forall c | 0 <= c < |s'.chans| ensures AtomicBroker.Log(a', s'.chans[c].name) == s'.chans[c].log {
      AtomicBroker.LogMoves(a, move, s'.chans[c].name);
      if c < |s.chans| {
        LogFollows(s, s.threads[t], c, move);
      } else {
        NewChannelUnheard(s, s.threads[t], move);
      }
    }
    UnheardFollow(s, s', t, a, move);
  }

  /** A name without a channel stays without messages. */
  lemma UnheardFollow(s: State, s': State, t: nat, a: Atomic, move: AtomicBroker.Step<Msg>)
    requires Frame(s, s', t) && TableUnique(s) && ChanMoves(s, s', t) && LogsMatch(s, a) && AtomicBroker.Enabled(a, move)
    requires move.Append? ==> move.name in s.table
    ensures forall name :: name !in s'.table ==> AtomicBroker.Log(AtomicBroker.Apply(a, move), name) == []
  {
    forall name | name !in s'.table ensures AtomicBroker.Log(AtomicBroker.Apply(a, move), name) == [] {
      AtomicBroker.LogMoves(a, move, name);
    }
  }

  lemma NewChannelUnheard(s: State, th: Thread, move: AtomicBroker.Step<Msg>)
    requires Creates(th) && LookedUp(s, th)
    requires !(th.Worker? && th.w.WLockChan?) ==> !move.Append?
    ensures !move.Append? && Subject(s, th) !in s.table
  {
  }

  /** A thread's step adds to one channel's log what its atomic step adds to the log of that name. */
  lemma LogFollows(s: State, th: Thread, c: nat, move: AtomicBroker.Step<Msg>)
    requires TableUnique(s) && c < |s.chans|
    requires th.Worker? && th.w.WLockChan? ==>
      th.w.c < |s.chans| && move == AtomicBroker.Append(s.chans[th.w.c].name, th.w.m)
    requires !(th.Worker? && th.w.WLockChan?) ==> !move.Append?
    ensures LogAfter(th, c, s.chans[c]) == s.chans[c].log + AtomicBroker.Appended(move, s.chans[c].name)
  {
    assert s.table[s.chans[c].name] == [c];
    if th.Worker? && th.w.WLockChan? {
      assert s.table[s.chans[th.w.c].name] == [th.w.c];
    }
  }

  /** What a step does to what a caller can see of one subscription. */
  lemma ViewFollows(s: State, s': State, t: nat, p: nat)
    requires CanGo(s, t) && Frame(s, s', t) && SubMoves(s, s', t) && p < |s.subs| && CallState(s, s.threads[t])
    requires s.threads[t].Subscribing? && s.threads[t].s.SInsert? ==> s.threads[t].s.c < |s.chans|
    ensures
      var sub, sub' := s.subs[p], s'.subs[p];
      match Label(s, t)
      case Join(q, _) =>
        if q == p then
          sub.life.Private? && sub'.life.Linked?
          && View(sub') == AtomicBroker.Subscriber(sub.name, |s.chans[s.threads[t].s.c].log|, |sub.taken|, true)
        else View(sub') == View(sub) && sub'.life == sub.life
      case Take(q, _) =>
        View(sub') == (if q == p then View(sub).(taken := |sub.taken| + 1) else View(sub)) && sub'.life == sub.life
      case Close(q) =>
        View(sub') == (if q == p then View(sub).(open := false) else View(sub)) && sub'.life.Private? == sub.life.Private?
      case _ => View(sub') == View(sub) && sub'.life.Private? == sub.life.Private?
  {
  }

  lemma SubsFollow(s: State, s': State, t: nat, a: Atomic)
    requires CanGo(s, t) && Frame(s, s', t) && SubMoves(s, s', t) && CallState(s, s.threads[t]) && Matches(s, a)
    requires LookedUp(s, s.threads[t]) && AtomicBroker.Enabled(a, Label(s, t))
    requires s.threads[t].Subscribing? && s.threads[t].s.SInsert? ==> s.subs[s.threads[t].p].taken == []
    ensures SubsMatch(s', AtomicBroker.Apply(a, Label(s, t)))
  {
    var a' := AtomicBroker.Apply(a, Label(s, t));
    forall p: nat
      ensures p in a'.subs <==> p < |s'.subs| && !s'.subs[p].life.Private?
      ensures p in a'.subs ==> a'.subs[p] == View(s'.subs[p])
    {
      AtomicBroker.SubscriberMoves(a, Label(s, t), p);
      if p < |s.subs| {
        ViewFollows(s, s', t, p);
      }
    }
  }

  /** A step of a thread is the atomic step of its label; a receive that succeeds returns what that step takes. */
  lemma GoSimulates(s: State, t: nat, a: Atomic)
    requires Inv(s) && CanGo(s, t) && Matches(s, a)
    ensures AtomicBroker.Enabled(a, Label(s, t)) && Matches(GoStep(s, t), AtomicBroker.Apply(a, Label(s, t)))
  {
    var th := s.threads[t];
    GoEffect(s, t);
    LabelEnabled(s, t, a);
    assert LookedUp(s, th) && CallState(s, th);
    LogsFollow(s, GoStep(s, t), t, a, Label(s, t));
    if th.Subscribing? && th.s.SInsert? {
      assert HandleOk(s, th.p);
    }
    SubsFollow(s, GoStep(s, t), t, a);
  }

  // ---------------------------------------------------------------- every step

  function LabelOf(s: State, step: Step): AtomicBroker.Step<Msg>
    requires Enabled(s, step)
  {
    match step
    case Go(t) => Label(s, t)
    case Teardown => AtomicBroker.CloseAll
    case _ => AtomicBroker.Nothing
  }

  lemma BeginUnseen(s: State, t: nat, op: Op, a: Atomic)
    requires CanBegin(s, t, op) && Matches(s, a)
    ensures Matches(BeginStep(s, t, op), a)
  {
  }

  lemma TeardownCloses(s: State, a: Atomic)
    requires Handles(s) && Enabled(s, Teardown) && Matches(s, a)
    ensures Matches(Apply(s, Teardown), AtomicBroker.Apply(a, AtomicBroker.CloseAll))
  {
    var s' := Apply(s, Teardown);
    var a' := AtomicBroker.Apply(a, AtomicBroker.CloseAll);
    forall p: nat | p in a'.subs ensures a'.subs[p] == View(s'.subs[p]) {
      assert HandleOk(s, p);
    }
  }

  lemma StepSimulates(s: State, step: Step, a: Atomic)
    requires Inv(s) && Enabled(s, step) && Matches(s, a)
    ensures AtomicBroker.Enabled(a, LabelOf(s, step))
    ensures Matches(Apply(s, step), AtomicBroker.Apply(a, LabelOf(s, step)))
  {
    match step
    case Go(t) => GoSimulates(s, t, a);
    case Begin(t, op) => BeginUnseen(s, t, op, a);
    case Spurious(_) =>
    case Teardown => TeardownCloses(s, a);
  }

  lemma {:induction false} RunSimulates(s: State, steps: seq<Step>, s': State, a: Atomic)
    returns (moves: seq<AtomicBroker.Step<Msg>>, a': Atomic)
    requires Inv(s) && Run(s, steps, s') && Matches(s, a)
    ensures |moves| == |steps| && AtomicBroker.Run(a, moves, a') && Matches(s', a')
    decreases |steps|
  {
    if steps == [] {
      moves, a' := [], a;
    } else {
      StepSimulates(s, steps[0], a);
      Inductive(s, steps[0]);
      var move := LabelOf(s, steps[0]);
      var rest;
      rest, a' := RunSimulates(Apply(s, steps[0]), steps[1..], s', AtomicBroker.Apply(a, move));
      moves := [move] + rest;
      assert moves[1..] == rest;
    }
  }

  /**
    Every run of the broker, step for step, is a run of the atomic broker: its logs are the channels'
    logs, its subscribers have joined, taken and closed as the proxies have.
   */
  lemma Refines(n: nat, m: nat, serial: bool, steps: seq<Step>, s: State)
    returns (moves: seq<AtomicBroker.Step<Msg>>, a: Atomic)
    requires Run(Init(n, m, serial), steps, s)
    ensures |moves| == |steps| && AtomicBroker.Run(AtomicBroker.Empty(), moves, a) && Matches(s, a)
  {
    Initially(n, m, serial);
    moves, a := RunSimulates(Init(n, m, serial), steps, s, AtomicBroker.Empty());
  }

  /** What a receive returns with code 0 is what its atomic step takes: the next message of the log. */
  lemma ReturnsWhatItTakes(s: State, t: nat)
    requires Reachable(s) && CanGo(s, t) && s.threads[t].Receiving?
    requires GoStep(s, t).threads[t].Done? && GoStep(s, t).threads[t].code == 0
    ensures GoStep(s, t).threads[t].msg.Some?
    ensures Label(s, t) == AtomicBroker.Take(s.threads[t].p, GoStep(s, t).threads[t].msg.value)
  {
    ReceiverFacts(s, t);
    TakesOldest(s, t);
  }
}
