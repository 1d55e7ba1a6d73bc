/** Two runs in which a command does not answer what its client would expect. */
module SessionRuns {
  import opened Prelude
  import opened DetachedList
  import opened Session
  import opened SessionInvariant
  import opened SessionTheorems
  import opened SessionWindows

  lemma {:induction false} RunThen(s: State, steps: seq<Step>, mid: State, step: Step)
    requires Run(s, steps, mid) && Enabled(mid, step)
    ensures Run(s, steps + [step], Apply(mid, step))
    decreases |steps|
  {
    if steps == [] {
      assert Run(Apply(mid, step), [], Apply(mid, step));
      assert [] + [step] == [step];
    } else {
      RunThen(Apply(s, steps[0]), steps[1..], mid, step);
      assert (steps + [step])[1..] == steps[1..] + [step];
    }
  }

  lemma Then(s: State, step: Step, s': State)
    requires Reachable(s) && Enabled(s, step) && Apply(s, step) == s'
    ensures Reachable(s')
  {
    var key: Option<string>, steps: seq<Step> :| Run(Init(key), steps, s);
    RunThen(Init(key), steps, s, step);
  }

  // ---- One subscription on the channel with the empty name ---------------------------------------

  function Only(clients: seq<Client>, detached: seq<Entry<nat>>, sub: Sub, pending: seq<Posting>, log: seq<Posting>): State {
    State(None, clients, detached, [sub], pending, log, false)
  }

  /** An authenticated client. */
  function Peer(phase: Phase, subscription: Option<nat>, detached: bool, active: bool, receiver: Receiver, replies: seq<Reply>): Client {
    Client(phase, true, subscription, detached, active, receiver, replies)
  }

  function TheSub(owner: Owner): Sub {
    Sub("", 0, None, [], [], 0, owner)
  }

  function Line(word: Word, number: nat): Request {
    Fields(word, "", 0, number, None)
  }

  /** A step of a client or its receiver, field by field. */
  lemma ClientStep(
    clients: seq<Client>, detached: seq<Entry<nat>>, sub: Sub, pending: seq<Posting>, log: seq<Posting>, step: Step,
    x: Client, detached': seq<Entry<nat>>, sub': Sub)
    requires Reachable(Only(clients, detached, sub, pending, log))
    requires Enabled(Only(clients, detached, sub, pending, log), step) && OfClient(step)
    requires
      var s := Only(clients, detached, sub, pending, log);
      && !Subscribes(s, step) && !Publishes(s, step)
      && ClientNext(s, step, step.c) == x && ShelfNext(s, step) == detached' && SubNext(s, step, 0) == sub'
    ensures Reachable(Only(clients[step.c := x], detached', sub', pending, log))
  {
    var s := Only(clients, detached, sub, pending, log);
    assert Apply(s, step).subs == [sub'];
    Then(s, step, Only(clients[step.c := x], detached', sub', pending, log));
  }

  /** The same with one client. */
  lemma SoloStep(
    x: Client, detached: seq<Entry<nat>>, sub: Sub, pending: seq<Posting>, log: seq<Posting>, step: Step,
    x': Client, detached': seq<Entry<nat>>, sub': Sub)
    requires Reachable(Only([x], detached, sub, pending, log))
    requires Enabled(Only([x], detached, sub, pending, log), step) && OfClient(step)
    requires
      var s := Only([x], detached, sub, pending, log);
      && !Subscribes(s, step) && !Publishes(s, step)
      && ClientNext(s, step, step.c) == x' && ShelfNext(s, step) == detached' && SubNext(s, step, 0) == sub'
    ensures Reachable(Only([x'], detached', sub', pending, log))
  {
    ClientStep([x], detached, sub, pending, log, step, x', detached', sub');
    assert [x][step.c := x'] == [x'];
  }

  /** The first client, come and authenticated. */
  function Arrived(): State {
    Init(None).(clients := [Peer(Serving, None, false, false, Off, [Ok])])
  }

  lemma AuthStep(s: State)
    requires s == Init(None).(clients := [Newcomer])
    ensures Enabled(s, Ask(0, Line(AUTH, 0))) && Apply(s, Ask(0, Line(AUTH, 0))) == Arrived()
  {
    var x := Peer(Serving, None, false, false, Off, [Ok]);
    assert ClientNext(s, Ask(0, Line(AUTH, 0)), 0) == x;
    assert [Newcomer][0 := x] == [x];
  }

  lemma AcceptStep(s: State)
    requires s == Init(None)
    ensures Enabled(s, Accept) && Apply(s, Accept) == s.(clients := [Newcomer])
  {
  }

  lemma Authenticated()
    ensures Reachable(Arrived())
  {
    var s := Init(None);
    assert Run(s, [], s);
    AcceptStep(s);
    Then(s, Accept, s.(clients := [Newcomer]));
    AuthStep(s.(clients := [Newcomer]));
    Then(s.(clients := [Newcomer]), Ask(0, Line(AUTH, 0)), Arrived());
  }

  /** It has subscribed. */
  function Opened(): State {
    Only([Peer(Serving, Some(0), false, true, Testing, [Ok, OkNumber(1)])], [], TheSub(Held(0)), [], [])
  }

  lemma SubscribeStep(s: State, step: Step)
    requires s == Arrived() && step == Ask(0, Line(SUBSCRIBE, 0))
    ensures Enabled(s, step) && Apply(s, step) == Opened()
  {
    var x, x' := s.clients[0], Opened().clients[0];
    assert ClientNext(s, step, 0) == x';
    assert [x][0 := x'] == [x'];
  }

  lemma Subscribed()
    ensures Reachable(Opened())
  {
    Authenticated();
    SubscribeStep(Arrived(), Ask(0, Line(SUBSCRIBE, 0)));
    Then(Arrived(), Ask(0, Line(SUBSCRIBE, 0)), Opened());
  }

  /** The client has sent DETACH. */
  lemma Asked()
    ensures Reachable(Only([Peer(Detaching, Some(0), false, false, Testing, [Ok, OkNumber(1)])], [], TheSub(Held(0)), [], []))
  {
    Subscribed();
    var x := Peer(Serving, Some(0), false, true, Testing, [Ok, OkNumber(1)]);
    var x' := Peer(Detaching, Some(0), false, false, Testing, [Ok, OkNumber(1)]);
    SoloStep(x, [], TheSub(Held(0)), [], [], Ask(0, Bare(DETACH)), x', [], TheSub(Held(0)));
  }

  /** Its receiver has ended. */
  lemma Stopped()
    ensures Reachable(Only([Peer(Detaching, Some(0), false, false, Off, [Ok, OkNumber(1)])], [], TheSub(Held(0)), [], []))
  {
    Asked();
    var x := Peer(Detaching, Some(0), false, false, Testing, [Ok, OkNumber(1)]);
    var x' := Peer(Detaching, Some(0), false, false, Off, [Ok, OkNumber(1)]);
    SoloStep(x, [], TheSub(Held(0)), [], [], Receive(0, true), x', [], TheSub(Held(0)));
  }

  /** It has put its subscription on the list. */
  lemma Listed()
    ensures Reachable(Only([Peer(Answering, Some(0), false, false, Off, [Ok, OkNumber(1)])], [Entry(1, 0)], TheSub(Shelved), [], []))
  {
    Stopped();
    var x := Peer(Detaching, Some(0), false, false, Off, [Ok, OkNumber(1)]);
    var x' := Peer(Answering, Some(0), false, false, Off, [Ok, OkNumber(1)]);
    SoloStep(x, [], TheSub(Held(0)), [], [], Joined(0), x', [Entry(1, 0)], TheSub(Shelved));
  }

  // ---- DETACH reads a freed subscription ---------------------------------------------------------

  /** The first client, between the list and its answer. */
  function Between(): Client {
    Peer(Answering, Some(0), false, false, Off, [Ok, OkNumber(1)])
  }

  lemma SecondComes(s: State)
    requires s == Only([Between()], [Entry(1, 0)], TheSub(Shelved), [], [])
    ensures Enabled(s, Accept)
    ensures Apply(s, Accept) == Only([Between(), Newcomer], [Entry(1, 0)], TheSub(Shelved), [], [])
  {
    assert SubNext(s, Accept, 0) == TheSub(Shelved);
    assert ClientsNext(s, Accept) == [Between(), Newcomer];
  }

  lemma Comes()
    ensures Reachable(Only([Between(), Newcomer], [Entry(1, 0)], TheSub(Shelved), [], []))
  {
    Listed();
    var s := Only([Between()], [Entry(1, 0)], TheSub(Shelved), [], []);
    SecondComes(s);
    Then(s, Accept, Only([Between(), Newcomer], [Entry(1, 0)], TheSub(Shelved), [], []));
  }

  lemma SecondStep(
    x: Client, detached: seq<Entry<nat>>, sub: Sub, step: Step, x': Client, detached': seq<Entry<nat>>, sub': Sub)
    requires Reachable(Only([Between(), x], detached, sub, [], []))
    requires Enabled(Only([Between(), x], detached, sub, [], []), step) && OfClient(step) && step.c == 1
    requires
      var s := Only([Between(), x], detached, sub, [], []);
      && !Subscribes(s, step) && !Publishes(s, step)
      && ClientNext(s, step, 1) == x' && ShelfNext(s, step) == detached' && SubNext(s, step, 0) == sub'
    ensures Reachable(Only([Between(), x'], detached', sub', [], []))
  {
    ClientStep([Between(), x], detached, sub, [], [], step, x', detached', sub');
    assert [Between(), x][1 := x'] == [Between(), x'];
  }

  /** A second client comes and authenticates. */
  lemma Joins()
    ensures Reachable(Only([Between(), Peer(Serving, None, false, false, Off, [Ok])], [Entry(1, 0)], TheSub(Shelved), [], []))
  {
    Comes();
    var x := Peer(Serving, None, false, false, Off, [Ok]);
    SecondStep(Newcomer, [Entry(1, 0)], TheSub(Shelved), Ask(1, Line(AUTH, 0)), x, [Entry(1, 0)], TheSub(Shelved));
  }

  /** It attaches the subscription. */
  lemma SecondAttaches()
    ensures Reachable(Only([Between(), Peer(Counting, Some(0), false, true, Testing, [Ok])], [], TheSub(Held(1)), [], []))
  {
    Joins();
    var x := Peer(Serving, None, false, false, Off, [Ok]);
    var x' := Peer(Counting, Some(0), false, true, Testing, [Ok]);
    assert FirstAt([Entry(1, 0)], 1) == 0;
    SecondStep(x, [Entry(1, 0)], TheSub(Shelved), Ask(1, Line(ATTACH, 1)), x', [], TheSub(Held(1)));
  }

  /** It gets its answer. */
  lemma SecondAnswered()
    ensures Reachable(Only([Between(), Peer(Serving, Some(0), false, true, Testing, [Ok, OkNumber(0)])], [], TheSub(Held(1)), [], []))
  {
    SecondAttaches();
    var x := Peer(Counting, Some(0), false, true, Testing, [Ok]);
    var x' := Peer(Serving, Some(0), false, true, Testing, [Ok, OkNumber(0)]);
    SecondStep(x, [], TheSub(Held(1)), Answer(1, true), x', [], TheSub(Held(1)));
  }

  /** It leaves, and with it the subscription. */
  lemma SecondLeaves()
    ensures Reachable(Only([Between(), Peer(Gone, None, false, false, Off, [Ok, OkNumber(0)])], [],
                           TheSub(Freed).(disposals := 1, closed := Some(0)), [], []))
  {
    SecondAnswered();
    var replies := [Ok, OkNumber(0)];
    var x0 := Peer(Serving, Some(0), false, true, Testing, replies);
    var x1 := Peer(Leaving, Some(0), false, false, Testing, replies);
    var x2 := Peer(Leaving, Some(0), false, false, Off, replies);
    var x3 := Peer(Gone, None, false, false, Off, replies);
    SecondStep(x0, [], TheSub(Held(1)), HangUp(1), x1, [], TheSub(Held(1)));
    SecondStep(x1, [], TheSub(Held(1)), Receive(1, true), x2, [], TheSub(Held(1)));
    SecondStep(x2, [], TheSub(Held(1)), Joined(1), x3, [], TheSub(Freed).(disposals := 1, closed := Some(0)));
  }

  /**
    The window of DETACH is real: another client attaches the id as soon as it is on the list and leaves,
    and the first one's answer is read from a freed subscription.
   */
  lemma DetachCanReadFreed() returns (s: State, c: nat)
    ensures Reachable(s) && Enabled(s, Answer(c, true)) && PointsAt(s, 0, c) && Disposed(s, 0)
    ensures Apply(s, Answer(c, true)).clients[c].replies == s.clients[c].replies + [OkStale]
  {
    SecondLeaves();
    s, c := Only([Between(), Peer(Gone, None, false, false, Off, [Ok, OkNumber(0)])], [],
                 TheSub(Freed).(disposals := 1, closed := Some(0)), [], []), 0;
    assert ClientNext(s, Answer(0, true), 0).replies == s.clients[0].replies + [OkStale];
  }

  // ---- ATTACH answers 0 with a message pending ---------------------------------------------------

  const Letter: string := ['x']

  function Full(owner: Owner): Sub {
    TheSub(owner).(inbox := [Letter])
  }

  /** The first client gets its answer to DETACH. */
  lemma FirstAnswered()
    ensures Reachable(Only([Peer(Serving, None, true, false, Off, [Ok, OkNumber(1), OkNumber(1)])], [Entry(1, 0)],
                           TheSub(Shelved), [], []))
  {
    Listed();
    var x := Peer(Serving, None, true, false, Off, [Ok, OkNumber(1), OkNumber(1)]);
    SoloStep(Between(), [Entry(1, 0)], TheSub(Shelved), [], [], Answer(0, true), x, [Entry(1, 0)], TheSub(Shelved));
  }

  lemma LetterIsString()
    ensures CString(Letter) == Letter
  {
    assert CString(Letter[1..]) == [];
  }

  lemma PublishStep(s: State, step: Step)
    requires s == Only([Peer(Serving, None, true, false, Off, [Ok, OkNumber(1), OkNumber(1)])], [Entry(1, 0)],
                       TheSub(Shelved), [], [])
    requires step == Ask(0, Fields(PUBLISH, "", 1, 0, Some(Letter)))
    ensures Enabled(s, step)
    ensures Apply(s, step) == Only([Peer(Serving, None, true, false, Off, [Ok, OkNumber(1), OkNumber(1), Ok])],
                                   [Entry(1, 0)], TheSub(Shelved), [Posting("", Letter)], [])
  {
    LetterIsString();
    var x, x' := s.clients[0], Peer(Serving, None, true, false, Off, [Ok, OkNumber(1), OkNumber(1), Ok]);
    assert ClientNext(s, step, 0) == x' && SubNext(s, step, 0) == TheSub(Shelved);
    assert [x][0 := x'] == [x'];
  }

  /** It publishes. */
  lemma Published()
    ensures Reachable(Only([Peer(Serving, None, true, false, Off, [Ok, OkNumber(1), OkNumber(1), Ok])], [Entry(1, 0)],
                           TheSub(Shelved), [Posting("", Letter)], []))
  {
    FirstAnswered();
    var s := Only([Peer(Serving, None, true, false, Off, [Ok, OkNumber(1), OkNumber(1)])], [Entry(1, 0)], TheSub(Shelved), [], []);
    var step := Ask(0, Fields(PUBLISH, "", 1, 0, Some(Letter)));
    PublishStep(s, step);
    Then(s, step, Only([Peer(Serving, None, true, false, Off, [Ok, OkNumber(1), OkNumber(1), Ok])], [Entry(1, 0)],
                       TheSub(Shelved), [Posting("", Letter)], []));
  }

  lemma DeliverStep(x: Client, s: State)
    requires s == Only([x], [Entry(1, 0)], TheSub(Shelved), [Posting("", Letter)], [])
    ensures Enabled(s, Deliver(0))
    ensures Apply(s, Deliver(0)) == Only([x], [Entry(1, 0)], Full(Shelved), [], [Posting("", Letter)])
  {
    assert SubNext(s, Deliver(0), 0) == Full(Shelved);
  }

  /** The message is delivered while nobody is attached. */
  lemma Waiting()
    ensures Reachable(Only([Peer(Serving, None, true, false, Off, [Ok, OkNumber(1), OkNumber(1), Ok])], [Entry(1, 0)],
                           Full(Shelved), [], [Posting("", Letter)]))
  {
    Published();
    var x := Peer(Serving, None, true, false, Off, [Ok, OkNumber(1), OkNumber(1), Ok]);
    var s := Only([x], [Entry(1, 0)], TheSub(Shelved), [Posting("", Letter)], []);
    DeliverStep(x, s);
    Then(s, Deliver(0), Only([x], [Entry(1, 0)], Full(Shelved), [], [Posting("", Letter)]));
  }

  function Reader(receiver: Receiver): Client {
    Peer(Counting, Some(0), false, true, receiver, [Ok, OkNumber(1), OkNumber(1), Ok])
  }

  /** The receiver of the new session takes the message before the count is read. */
  lemma TakenFirst(s: State, s1: State, s2: State)
    requires s == Only([Reader(Testing)], [], Full(Held(0)), [], [Posting("", Letter)])
    requires s1 == Only([Reader(Taking)], [], Full(Held(0)), [], [Posting("", Letter)])
    requires s2 == Only([Reader(Writing(Letter))], [], TheSub(Held(0)), [], [Posting("", Letter)])
    ensures Run(s, [Receive(0, true), Receive(0, true)], s2)
  {
    assert ClientNext(s, Receive(0, true), 0) == Reader(Taking) && SubNext(s, Receive(0, true), 0) == Full(Held(0));
    assert Apply(s, Receive(0, true)) == s1 by { assert s.clients[0 := Reader(Taking)] == s1.clients; }
    assert ClientNext(s1, Receive(0, true), 0) == Reader(Writing(Letter));
    assert SubNext(s1, Receive(0, true), 0) == TheSub(Held(0));
    assert Apply(s1, Receive(0, true)) == s2 by { assert s1.clients[0 := Reader(Writing(Letter))] == s2.clients; }
    assert Run(s2, [], s2);
    assert Run(s1, [Receive(0, true)], s2);
  }

  lemma AttachedFull(s: State, s0: State)
    requires s == Only([Peer(Serving, None, true, false, Off, [Ok, OkNumber(1), OkNumber(1), Ok])], [Entry(1, 0)],
                       Full(Shelved), [], [Posting("", Letter)])
    requires s0 == Only([Reader(Testing)], [], Full(Held(0)), [], [Posting("", Letter)])
    ensures
      var step := Ask(0, Line(ATTACH, 1));
      Enabled(s, step) && Attaches(s, step) && Attached(s, step) == 0 && Apply(s, step) == s0
  {
    var step := Ask(0, Line(ATTACH, 1));
    assert ClientNext(s, step, 0) == Reader(Testing) && SubNext(s, step, 0) == Full(Held(0));
    assert s.clients[0 := Reader(Testing)] == s0.clients;
  }

  lemma AnsweredZero(s: State)
    requires s == Only([Reader(Writing(Letter))], [], TheSub(Held(0)), [], [Posting("", Letter)])
    ensures Enabled(s, Answer(0, true)) && Apply(s, Answer(0, true)).clients[0].replies == s.clients[0].replies + [OkNumber(0)]
  {
    assert ClientNext(s, Answer(0, true), 0).replies == s.clients[0].replies + [OkNumber(0)];
  }

  /** The count is late: an ATTACH that finds one pending message can answer 0. */
  lemma AttachCanAnswerZero() returns (s: State, step: Step, later: seq<Step>, s': State)
    ensures Reachable(s) && Enabled(s, step) && Attaches(s, step) && Attached(s, step) == 0 && |Inbox(s, 0)| == 1
    ensures Run(Apply(s, step), later, s') && NoAnswer(later, step.c) && Enabled(s', Answer(step.c, true))
    ensures Apply(s', Answer(step.c, true)).clients[step.c].replies == s'.clients[step.c].replies + [OkNumber(0)]
  {
    Waiting();
    s := Only([Peer(Serving, None, true, false, Off, [Ok, OkNumber(1), OkNumber(1), Ok])], [Entry(1, 0)], Full(Shelved), [],
              [Posting("", Letter)]);
    var s0 := Only([Reader(Testing)], [], Full(Held(0)), [], [Posting("", Letter)]);
    var s1 := Only([Reader(Taking)], [], Full(Held(0)), [], [Posting("", Letter)]);
    s' := Only([Reader(Writing(Letter))], [], TheSub(Held(0)), [], [Posting("", Letter)]);
    step, later := Ask(0, Line(ATTACH, 1)), [Receive(0, true), Receive(0, true)];
    AttachedFull(s, s0);
    TakenFirst(s0, s1, s');
    AnsweredZero(s');
  }
}
