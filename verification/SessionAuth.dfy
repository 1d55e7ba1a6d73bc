/** A client that never authenticates might as well have said nothing. */
module SessionAuth {
  import opened Prelude
  import opened DetachedList
  import opened Session
  import opened SessionInvariant

  /** A state without the replies of client `c`. */
  function Muted(s: State, c: nat): State {
    s.(clients := Hushed(s.clients, c))
  }

  function Hushed(clients: seq<Client>, c: nat): seq<Client> {
    if c < |clients| then clients[c := clients[c].(replies := [])] else clients
  }

  /** What is left of a step when client `c` says nothing: where it quits, it hangs up instead. */
  function Replaced(step: Step, c: nat): Option<Step> {
    if !(step.Ask? && step.c == c) then Some(step)
    else if step.request.Bare? && step.request.word.QUIT? then Some(HangUp(c))
    else None
  }

  /** The steps without the commands of client `c`. */
  function Silenced(steps: seq<Step>, c: nat): seq<Step> {
    if steps == [] then []
    else (match Replaced(steps[0], c) case Some(step) => [step] case None => []) + Silenced(steps[1..], c)
  }

  /** Replies decide nothing. */
  lemma MutedEnabled(s: State, step: Step, c: nat)
    ensures Enabled(Muted(s, c), step) <==> Enabled(s, step)
  {
    var t := Muted(s, c);
    assert forall d :: 0 <= d < |s.clients| ==> t.clients[d] == s.clients[d] || t.clients[d] == s.clients[d].(replies := []);
  }

  lemma MutedSub(s: State, step: Step, c: nat, k: nat)
    requires Enabled(s, step) && Enabled(Muted(s, c), step) && k < |s.subs|
    ensures SubNext(Muted(s, c), step, k) == SubNext(s, step, k)
  {
  }

  lemma MutedChoices(s: State, step: Step, c: nat)
    requires Enabled(s, step) && Enabled(Muted(s, c), step)
    ensures Subscribes(Muted(s, c), step) == Subscribes(s, step) && Publishes(Muted(s, c), step) == Publishes(s, step)
    ensures ShelfNext(Muted(s, c), step) == ShelfNext(s, step)
  {
  }

  /** A command is answered, and changes the client, without a look at earlier replies. */
  lemma MutedAnswer(s: State, step: Step, c: nat)
    requires step.Ask? && step.c < |s.clients|
    ensures AnswerTo(Muted(s, c), step) == AnswerTo(s, step)
  {
    var x, y := s.clients[step.c], Muted(s, c).clients[step.c];
    assert y.authenticated == x.authenticated && y.subscription == x.subscription;
  }

  lemma MutedChange(s: State, step: Step, c: nat)
    requires step.Ask? && step.c < |s.clients|
    ensures ChangeBy(Muted(s, c), step) == ChangeBy(s, step)
  {
    var x, y := s.clients[step.c], Muted(s, c).clients[step.c];
    assert y.authenticated == x.authenticated && y.subscription == x.subscription;
  }

  lemma MutedServed(s: State, step: Step, c: nat)
    requires step.Ask? && step.c < |s.clients|
    ensures
      var x, y := Served(s, step), Served(Muted(s, c), step);
      y.(replies := []) == x.(replies := []) && (step.c != c ==> y == x)
  {
    MutedAnswer(s, step, c);
    MutedChange(s, step, c);
  }

  lemma MutedClient(s: State, step: Step, c: nat)
    requires Enabled(s, step) && Enabled(Muted(s, c), step) && OfClient(step)
    ensures
      var x, y := ClientNext(s, step, step.c), ClientNext(Muted(s, c), step, step.c);
      if step.c == c then y.(replies := []) == x.(replies := []) else y == x
  {
    if step.Ask? {
      MutedServed(s, step, c);
    }
  }

  lemma MutedClients(s: State, step: Step, c: nat)
    requires Enabled(s, step) && Enabled(Muted(s, c), step)
    ensures Hushed(ClientsNext(Muted(s, c), step), c) == Hushed(ClientsNext(s, step), c)
  {
    if OfClient(step) {
      MutedClient(s, step, c);
    }
    var a, b := Hushed(ClientsNext(Muted(s, c), step), c), Hushed(ClientsNext(s, step), c);
    forall d | 0 <= d < |a| ensures a[d] == b[d] {
    }
  }

  /** A step does the same with and without the replies of client `c`, but for those replies. */
  lemma MutedStep(s: State, step: Step, c: nat)
    requires Enabled(s, step) && Enabled(Muted(s, c), step)
    ensures Muted(Apply(Muted(s, c), step), c) == Muted(Apply(s, step), c)
  {
    var t := Muted(s, c);
    forall k | 0 <= k < |s.subs| ensures SubNext(t, step, k) == SubNext(s, step, k) {
      MutedSub(s, step, c, k);
    }
    MutedChoices(s, step, c);
    MutedClients(s, step, c);
    assert Apply(t, step).subs == Apply(s, step).subs;
  }

  // ---- Who has authenticated ---------------------------------------------------------------------

  predicate Authed(s: State, c: nat) {
    c < |s.clients| && s.clients[c].authenticated
  }

  /** An AUTH command of client `c` with the right key, or with any when none is set. */
  predicate GoodAuth(step: Step, key: Option<string>, c: nat) {
    && step.Ask? && step.c == c && step.request.Fields? && step.request.word.AUTH?
    && (key.None? || key.value == step.request.argument)
  }

  lemma StepAuth(s: State, step: Step, c: nat)
    requires Enabled(s, step)
    ensures Authed(Apply(s, step), c) <==> Authed(s, c) || GoodAuth(step, s.key, c)
    ensures Apply(s, step).key == s.key
  {
  }

  lemma {:induction false} RunAuth(s: State, steps: seq<Step>, s': State, c: nat)
    requires Run(s, steps, s')
    ensures Authed(s', c) <==> Authed(s, c) || exists i :: 0 <= i < |steps| && GoodAuth(steps[i], s.key, c)
    decreases |steps|
  {
    if steps != [] {
      StepAuth(s, steps[0], c);
      var rest := steps[1..];
      RunAuth(Apply(s, steps[0]), rest, s', c);
      assert forall i :: 0 <= i < |rest| ==> rest[i] == steps[i + 1];
      if i :| 0 <= i < |steps| && GoodAuth(steps[i], s.key, c) {
        assert i == 0 || GoodAuth(rest[i - 1], s.key, c);
      }
    }
  }

  /** A client is authenticated exactly when it has sent AUTH with the right key, or with any when none is set. */
  lemma AuthenticatedExactly(key: Option<string>, steps: seq<Step>, s: State, c: nat)
    requires Run(Init(key), steps, s) && c < |s.clients|
    ensures s.clients[c].authenticated <==> exists i :: 0 <= i < |steps| && GoodAuth(steps[i], key, c)
  {
    RunAuth(Init(key), steps, s, c);
  }

  // ---- Nothing before that -----------------------------------------------------------------------

  /** A command of a client that has not authenticated, and does not with it: a reply, or its own end. */
  lemma RefusedStep(s: State, step: Step)
    requires Enabled(s, step) && step.Ask? && !s.clients[step.c].authenticated && !Authed(Apply(s, step), step.c)
    ensures
      var x := Apply(s, step).clients[step.c];
      var quits := step.request.word.QUIT? && step.request.Bare?;
      && x == (if quits then s.clients[step.c].(phase := Leaving, active := false) else s.clients[step.c]).(replies := x.replies)
      && Apply(s, step) == s.(clients := s.clients[step.c := x])
  {
    assert forall k :: 0 <= k < |s.subs| ==> SubNext(s, step, k) == s.subs[k];
    assert Apply(s, step).subs == s.subs;
  }

  lemma HangUpStep(s: State, c: nat)
    requires Enabled(s, HangUp(c))
    ensures Apply(s, HangUp(c)) == s.(clients := s.clients[c := s.clients[c].(phase := Leaving, active := false)])
  {
    assert forall k :: 0 <= k < |s.subs| ==> SubNext(s, HangUp(c), k) == s.subs[k];
    assert Apply(s, HangUp(c)).subs == s.subs;
  }

  lemma MutedAlike(s: State, t: State, c: nat)
    requires Muted(t, c) == Muted(s, c) && c < |s.clients|
    ensures c < |t.clients| && t.clients[c].(replies := []) == s.clients[c].(replies := [])
    ensures t == s.(clients := s.clients[c := t.clients[c]])
  {
    var m, n := Muted(s, c), Muted(t, c);
    assert m.clients[c] == n.clients[c];
    assert forall d :: 0 <= d < |s.clients| && d != c ==> m.clients[d] == s.clients[d] && n.clients[d] == t.clients[d];
    assert t.clients == s.clients[c := t.clients[c]];
  }

  /** What a refused command leaves behind, silence or a hang-up leaves behind too. */
  lemma SilencedCommand(s: State, step: Step, t: State, c: nat) returns (t': State)
    requires Enabled(s, step) && Muted(t, c) == Muted(s, c) && !Authed(Apply(s, step), c) && step.Ask? && step.c == c
    ensures Follows(t, Replaced(step, c), t') && Muted(t', c) == Muted(Apply(s, step), c)
  {
    StepAuth(s, step, c);
    RefusedStep(s, step);
    MutedAlike(s, t, c);
    if step.request.word.QUIT? && step.request.Bare? {
      HangUpStep(t, c);
      t' := Apply(t, HangUp(c));
    } else {
      t' := t;
    }
  }

  /** At most one step leads from one state to another. */
  ghost predicate Follows(t: State, step: Option<Step>, t': State) {
    match step
    case Some(x) => Enabled(t, x) && t' == Apply(t, x)
    case None => t' == t
  }

  /** Two states that differ in the replies of client `c` only stay so, while it says nothing in one of them. */
  lemma SilencedStep(s: State, step: Step, t: State, c: nat) returns (t': State)
    requires Enabled(s, step) && Muted(t, c) == Muted(s, c) && !Authed(Apply(s, step), c)
    ensures Follows(t, Replaced(step, c), t') && Muted(t', c) == Muted(Apply(s, step), c)
  {
    if step.Ask? && step.c == c {
      t' := SilencedCommand(s, step, t, c);
    } else {
      MutedEnabled(s, step, c);
      MutedEnabled(t, step, c);
      MutedStep(s, step, c);
      MutedStep(t, step, c);
      t' := Apply(t, step);
    }
  }

  lemma RunCons(s: State, step: Step, next: State, rest: seq<Step>, s': State)
    requires Enabled(s, step) && next == Apply(s, step) && Run(next, rest, s')
    ensures Run(s, [step] + rest, s')
  {
    var steps := [step] + rest;
    assert steps[0] == step && steps[1..] == rest;
  }

  lemma {:induction false} SilencedRun(s: State, steps: seq<Step>, s': State, t: State, c: nat) returns (t': State)
    requires Run(s, steps, s') && Muted(t, c) == Muted(s, c) && !Authed(s', c)
    ensures Run(t, Silenced(steps, c), t') && Muted(t', c) == Muted(s', c)
    decreases |steps|
  {
    if steps == [] {
      t' := t;
    } else {
      RunAuth(Apply(s, steps[0]), steps[1..], s', c);
      var mid := SilencedStep(s, steps[0], t, c);
      t' := SilencedRun(Apply(s, steps[0]), steps[1..], s', mid, c);
      if Replaced(steps[0], c).Some? {
        RunCons(t, Replaced(steps[0], c).value, mid, Silenced(steps[1..], c), t');
      } else {
        assert Silenced(steps, c) == Silenced(steps[1..], c);
      }
    }
  }

  lemma {:induction false} SilencedSaysNothing(steps: seq<Step>, c: nat)
    ensures forall i :: 0 <= i < |Silenced(steps, c)| && Silenced(steps, c)[i].Ask? ==> Silenced(steps, c)[i].c != c
  {
    if steps != [] {
      SilencedSaysNothing(steps[1..], c);
    }
  }

  /**
    Take all commands of a client that has not authenticated out of a run, letting it hang up where it
    quit: what is left is a run, and it ends in the same state, but for the replies to that client.
   */
  lemma NoTraceBeforeAuth(key: Option<string>, steps: seq<Step>, s: State, c: nat) returns (t: State)
    requires Run(Init(key), steps, s) && c < |s.clients| && !s.clients[c].authenticated
    ensures Run(Init(key), Silenced(steps, c), t) && Muted(t, c) == Muted(s, c)
    ensures forall i :: 0 <= i < |Silenced(steps, c)| && Silenced(steps, c)[i].Ask? ==> Silenced(steps, c)[i].c != c
  {
    t := SilencedRun(Init(key), steps, s, Init(key), c);
    SilencedSaysNothing(steps, c);
  }

  /** Only authenticated clients ever point at a subscription. */
  lemma HoldersAuthenticated(s: State, c: nat)
    requires Reachable(s) && c < |s.clients| && s.clients[c].subscription.Some?
    ensures s.clients[c].authenticated
  {
    ReachableInv(s);
    assert ClientOk(s, c);
  }
}
