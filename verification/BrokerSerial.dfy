/** One worker and publish calls that do not overlap: message ids never go backwards. */
module BrokerSerial {
  import opened Prelude
  import opened Broker
  import opened BrokerSteps
  import opened BrokerStructure
  import opened BrokerLists
  import opened BrokerOrder
  import opened BrokerIds

  ghost predicate Increasing(msgs: seq<Msg>) {
    forall j, k :: 0 <= j < k < |msgs| ==> msgs[j].id < msgs[k].id
  }

  ghost predicate AllBelow(msgs: seq<Msg>, id: nat) {
    forall k :: 0 <= k < |msgs| ==> msgs[k].id < id
  }

  ghost predicate Roles(s: State) {
    && s.workers <= |s.threads|
    && forall t :: 0 <= t < |s.threads| ==> (s.threads[t].Worker? <==> t < s.workers)
  }

  ghost predicate OnePublisher(s: State) {
    s.serial ==>
      forall t, u :: 0 <= t < |s.threads| && 0 <= u < |s.threads| && s.threads[t].Publishing? && s.threads[u].Publishing?
                     ==> t == u
  }

  /** Everything logged or queued was published before the message that `th` carries; a worker's precedes the queue. */
  ghost predicate InTurn(s: State, th: Thread) {
    Carried(th).Some? ==>
      var id := Carried(th).value.id;
      && (forall c :: 0 <= c < |s.chans| ==> AllBelow(s.chans[c].log, id))
      && (if th.Publishing? then
            && AllBelow(s.queue, id)
            && forall t :: 0 <= t < |s.threads| && s.threads[t].Worker? && Carried(s.threads[t]).Some? ==>
                 Carried(s.threads[t]).value.id < id
          else forall q :: 0 <= q < |s.queue| ==> id < s.queue[q].id)
  }

  ghost predicate Ordered(s: State) {
    s.workers <= 1 && s.serial ==>
      && Increasing(s.queue)
      && (forall c :: 0 <= c < |s.chans| ==> Increasing(s.chans[c].log))
      && (forall c, q :: 0 <= c < |s.chans| && 0 <= q < |s.queue| ==> AllBelow(s.chans[c].log, s.queue[q].id))
      && (forall t :: 0 <= t < |s.threads| ==> InTurn(s, s.threads[t]))
  }

  ghost predicate Serial(s: State) {
    Roles(s) && OnePublisher(s) && Ordered(s)
  }

  // ---------------------------------------------------------------- who may carry a message

  lemma RolesKept(s: State, step: Step)
    requires Roles(s) && Enabled(s, step)
    ensures Roles(Apply(s, step))
  {
    match step
    case Go(t) => GoKeepsRoles(s, t);
    case _ =>
  }

  lemma GoKeepsRoles(s: State, t: nat)
    requires Roles(s) && CanGo(s, t)
    ensures Roles(GoStep(s, t))
  {
    GoEffect(s, t);
    GoKind(s, t);
  }

  lemma NobodyStartsPublishing(s: State, t: nat)
    requires CanGo(s, t)
    ensures !GoStep(s, t).threads[t].Publishing?
  {
    GoKind(s, t);
  }

  lemma OnePublisherGoes(s: State, t: nat)
    requires OnePublisher(s) && CanGo(s, t)
    ensures OnePublisher(GoStep(s, t))
  {
    GoEffect(s, t);
    NobodyStartsPublishing(s, t);
  }

  lemma OnePublisherKept(s: State, step: Step)
    requires OnePublisher(s) && Enabled(s, step)
    ensures OnePublisher(Apply(s, step))
  {
    match step
    case Go(t) => OnePublisherGoes(s, t);
    case Begin(t, op) =>
      forall u | 0 <= u < |s.threads| && u != t ensures Apply(s, step).threads[u] == s.threads[u] {
      }
    case _ =>
  }

  // ---------------------------------------------------------------- the order of ids

  /** With one worker, a worker's step leaves no other worker. */
  lemma OrderedGo(s: State, s': State, t: nat)
    requires Roles(s) && OnePublisher(s) && Ordered(s) && Roles(s') && s.workers <= 1 && s.serial
    requires Frame(s, s', t) && ChanMoves(s, s', t) && MsgMoves(s, s', t)
    ensures Ordered(s')
  {
    var th := s.threads[t];
    OthersCarryTheSame(s, s', t);
    assert InTurn(s, th);
    QueueOrdered(s, s', t);
    LogsOrdered(s, s', t);
    forall u | 0 <= u < |s'.threads| ensures InTurn(s', s'.threads[u]) {
      assert InTurn(s, s.threads[u]);
      TurnKept(s, s', t, u);
    }
  }

  lemma QueueOrdered(s: State, s': State, t: nat)
    requires Ordered(s) && s.workers <= 1 && s.serial && Frame(s, s', t) && MsgMoves(s, s', t)
    ensures Increasing(s'.queue)
  {
    assert InTurn(s, s.threads[t]);
  }

  lemma LogsOrdered(s: State, s': State, t: nat)
    requires Ordered(s) && s.workers <= 1 && s.serial && Frame(s, s', t) && ChanMoves(s, s', t) && MsgMoves(s, s', t)
    ensures forall c :: 0 <= c < |s'.chans| ==> Increasing(s'.chans[c].log)
    ensures forall c, q :: 0 <= c < |s'.chans| && 0 <= q < |s'.queue| ==> AllBelow(s'.chans[c].log, s'.queue[q].id)
  {
    var th := s.threads[t];
    assert InTurn(s, th);
    forall c | 0 <= c < |s'.chans|
      ensures Increasing(s'.chans[c].log)
      ensures forall q :: 0 <= q < |s'.queue| ==> AllBelow(s'.chans[c].log, s'.queue[q].id)
    {
      if c < |s.chans| {
        assert Increasing(s.chans[c].log);
        assert Carried(th).Some? ==> AllBelow(s.chans[c].log, Carried(th).value.id);
      }
    }
  }

  lemma TurnKept(s: State, s': State, t: nat, u: nat)
    requires Roles(s) && OnePublisher(s) && Ordered(s) && Roles(s') && s.workers <= 1 && s.serial
    requires Frame(s, s', t) && ChanMoves(s, s', t) && MsgMoves(s, s', t)
    requires u < |s.threads| && InTurn(s, s.threads[u]) && InTurn(s, s.threads[t])
    ensures InTurn(s', s'.threads[u])
  {
    OthersCarryTheSame(s, s', t);
    var th' := s'.threads[u];
    if Carried(th').Some? {
      LogsBelow(s, s', t, u);
      if th'.Publishing? {
        QueueBelow(s, s', t, u);
      }
    }
  }

  lemma LogsBelow(s: State, s': State, t: nat, u: nat)
    requires Roles(s) && Ordered(s) && Roles(s') && s.workers <= 1 && s.serial
    requires Frame(s, s', t) && ChanMoves(s, s', t) && MsgMoves(s, s', t)
    requires u < |s.threads| && InTurn(s, s.threads[u]) && InTurn(s, s.threads[t]) && Carried(s'.threads[u]).Some?
    ensures forall c :: 0 <= c < |s'.chans| ==> AllBelow(s'.chans[c].log, Carried(s'.threads[u]).value.id)
  {
    OthersCarryTheSame(s, s', t);
    forall c | 0 <= c < |s'.chans| ensures AllBelow(s'.chans[c].log, Carried(s'.threads[u]).value.id) {
      if c < |s.chans| {
        if u == t && s.threads[t] == Worker(WIdle) {
          assert AllBelow(s.chans[c].log, s.queue[0].id);
        } else {
          assert AllBelow(s.chans[c].log, Carried(s.threads[u]).value.id);
        }
      }
    }
  }

  lemma QueueBelow(s: State, s': State, t: nat, u: nat)
    requires Roles(s) && OnePublisher(s) && Ordered(s) && Roles(s') && s.workers <= 1 && s.serial
    requires Frame(s, s', t) && MsgMoves(s, s', t)
    requires u < |s.threads| && s'.threads[u].Publishing? && InTurn(s, s.threads[u])
    requires forall v :: 0 <= v < |s.threads| && v != t ==> Carried(s'.threads[v]) == Carried(s.threads[v])
    ensures AllBelow(s'.queue, s'.threads[u].m.id)
    ensures forall v :: 0 <= v < |s'.threads| && s'.threads[v].Worker? && Carried(s'.threads[v]).Some? ==>
              Carried(s'.threads[v]).value.id < s'.threads[u].m.id
  {
  }

  lemma BeginKeepsOrdered(s: State, t: nat, op: Op)
    requires Serial(s) && Ids(s) && CanBegin(s, t, op)
    ensures Ordered(BeginStep(s, t, op))
  {
    var s' := BeginStep(s, t, op);
    forall i | i in s.place ensures i < s.nextMsg {
      assert PlaceOk(s, i);
    }
    if s.workers <= 1 && s.serial {
      forall u | 0 <= u < |s'.threads| ensures InTurn(s', s'.threads[u]) {
        assert InTurn(s, s.threads[u]) && CarriedOk(s, u);
        forall v | 0 <= v < |s.threads| ensures Carried(s.threads[v]).Some? ==> Carried(s.threads[v]).value.id < s.nextMsg {
          assert CarriedOk(s, v);
        }
      }
    }
  }

  lemma TeardownKeepsOrdered(s: State)
    requires Serial(s) && Enabled(s, Teardown)
    ensures Ordered(Apply(s, Teardown))
  {
    forall u | 0 <= u < |s.threads| ensures Carried(s.threads[u]).None? {
      assert Quiet(s.threads[u]);
    }
  }

  lemma SpuriousKeepsOrdered(s: State, t: nat)
    requires Serial(s) && Enabled(s, Spurious(t))
    ensures Ordered(Apply(s, Spurious(t)))
  {
    var s' := Apply(s, Spurious(t));
    if s.workers <= 1 && s.serial {
      forall u | 0 <= u < |s'.threads| ensures InTurn(s', s'.threads[u]) {
        assert InTurn(s, s.threads[u]);
      }
    }
  }

  lemma SerialKept(s: State, step: Step)
    requires Serial(s) && Ids(s) && Enabled(s, step)
    ensures Serial(Apply(s, step))
  {
    RolesKept(s, step);
    OnePublisherKept(s, step);
    match step
    case Go(t) =>
      GoEffect(s, t);
      GoMsgMoves(s, t);
      if s.workers <= 1 && s.serial {
        OrderedGo(s, GoStep(s, t), t);
      }
    case Begin(t, op) => BeginKeepsOrdered(s, t, op);
    case Spurious(t) => SpuriousKeepsOrdered(s, t);
    case Teardown => TeardownKeepsOrdered(s);
  }
}
