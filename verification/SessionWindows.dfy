/**
  The two commands that touch shared state more than once: DETACH, which reads the id of its subscription
  after putting it on the list, and ATTACH, which reads the pending count after starting its receiver.
  What each answers, exactly when that is what the client would expect, and runs in which it is not.
 */
module SessionWindows {
  import opened Prelude
  import opened DetachedList
  import opened Session
  import opened SessionInvariant
  import opened SessionTheorems

  /** Client `c` sends no second-half answer along a run. */
  predicate NoAnswer(steps: seq<Step>, c: nat) {
    forall i :: 0 <= i < |steps| && steps[i].Answer? ==> steps[i].c != c
  }

  // ---- DETACH: from the list to the answer -------------------------------------------------------

  /** A DETACH puts the subscription on the list under its id, as it was, and still points at it. */
  lemma DetachLists(s: State, c: nat)
    requires Reachable(s) && Enabled(s, Joined(c)) && Shelves(s, Joined(c))
    ensures
      var k := s.clients[c].subscription.value;
      var s' := Apply(s, Joined(c));
      && k < |s.subs| && Kept(s', k, s.subs[k]) && s'.subs[k].disposals == 0
      && ShelvedAt(s', k, 0) && s'.detached[0].id == k + 1
      && PointsAt(s', k, c) && s'.clients[c].phase.Answering?
  {
    ReachableInv(s);
    assert ClientOk(s, c);
    assert OwnerOk(s, s.clients[c].subscription.value);
    Handovers(s, Joined(c), s.clients[c].subscription.value);
  }

  /** Along a run, a client that holds subscription `k` leaves and frees it. */
  ghost predicate ExitsHolding(s: State, steps: seq<Step>, k: nat)
    decreases |steps|
  {
    && steps != [] && Enabled(s, steps[0])
    && (|| (Disposes(s, steps[0]) && s.clients[steps[0].c].subscription == Some(k))
        || ExitsHolding(Apply(s, steps[0]), steps[1..], k))
  }

  /** A client in the window of DETACH stays as it is until it answers. */
  lemma AnsweringStays(s: State, step: Step, c: nat)
    requires Inv(s) && Enabled(s, step) && !(step.Answer? && step.c == c)
    requires c < |s.clients| && s.clients[c].phase.Answering?
    ensures !step.Close? && c < |Apply(s, step).clients| && Apply(s, step).clients[c] == s.clients[c]
  {
    assert ClientOk(s, c);
  }

  lemma {:induction false} FreedStays(s: State, steps: seq<Step>, s': State, k: nat)
    requires Run(s, steps, s') && Disposed(s, k)
    ensures Disposed(s', k)
    decreases |steps|
  {
    if steps != [] {
      Handovers(s, steps[0], k);
      FreedStays(Apply(s, steps[0]), steps[1..], s', k);
    }
  }

  lemma {:induction false} LiveExactly(s: State, steps: seq<Step>, s': State, c: nat, k: nat)
    requires Inv(s) && Run(s, steps, s') && NoAnswer(steps, c)
    requires PointsAt(s, k, c) && s.clients[c].phase.Answering? && !Disposed(s, k)
    ensures Inv(s') && c < |s'.clients| && s'.clients[c] == s.clients[c]
    ensures Disposed(s', k) <==> ExitsHolding(s, steps, k)
    decreases |steps|
  {
    if steps != [] {
      var next := Apply(s, steps[0]);
      assert ClientOk(s, c);
      AnsweringStays(s, steps[0], c);
      StepInv(s, steps[0]);
      Handovers(s, steps[0], k);
      if Disposed(next, k) {
        FreedStays(next, steps[1..], s', k);
        StillAnswering(next, steps[1..], s', c);
      } else {
        LiveExactly(next, steps[1..], s', c, k);
      }
    }
  }

  lemma {:induction false} StillAnswering(s: State, steps: seq<Step>, s': State, c: nat)
    requires Inv(s) && Run(s, steps, s') && NoAnswer(steps, c)
    requires c < |s.clients| && s.clients[c].phase.Answering?
    ensures Inv(s') && c < |s'.clients| && s'.clients[c] == s.clients[c]
    decreases |steps|
  {
    if steps != [] {
      AnsweringStays(s, steps[0], c);
      StepInv(s, steps[0]);
      StillAnswering(Apply(s, steps[0]), steps[1..], s', c);
    }
  }

  /**
    DETACH reads a live subscription, and answers its id, exactly when no client has meanwhile attached
    the subscription and left with it. If nobody has even attached it, it does.
   */
  lemma DetachAnswersId(s: State, c: nat, k: nat, later: seq<Step>, s': State, arrived: bool)
    requires Reachable(s) && PointsAt(s, k, c) && s.clients[c].phase.Answering? && ShelvedAt(s, k, 0)
    requires Run(s, later, s') && NoAnswer(later, c)
    ensures c < |s'.clients| && Enabled(s', Answer(c, arrived))
    ensures Apply(s', Answer(c, arrived)).clients[c].replies == s.clients[c].replies + [IdRead(s', k)]
    ensures IdRead(s', k) == (if ExitsHolding(s, later, k) then OkStale else OkNumber(k + 1))
    ensures Untaken(s, later, k) ==> IdRead(s', k) == OkNumber(k + 1)
  {
    ReachableInv(s);
    OwnedOnce(s, k);
    LiveExactly(s, later, s', c, k);
    if Untaken(s, later, k) {
      RunKept(s, later, s', k, s.subs[k]);
      assert OwnerOk(s', k);
    }
  }

  // ---- ATTACH: from the receiver to the answer ---------------------------------------------------

  /** An ATTACH takes the subscription as it is and starts a receiver that has taken nothing yet. */
  lemma AttachOpens(s: State, step: Step, k: nat)
    requires Reachable(s) && Enabled(s, step) && Attaches(s, step) && step.request.number == k + 1
    ensures k < |s.subs| && k < |Apply(s, step).subs|
    ensures Apply(s, step).subs[k] == s.subs[k].(owner := Held(step.c))
    ensures InHand(Apply(s, step), k) == [] && Apply(s, step).log == s.log
    ensures Holds(Apply(s, step), k, step.c) && Apply(s, step).clients[step.c].phase.Counting?
  {
    ReachableInv(s);
    AttachedIsShelved(s, step);
    AttachEffect(s, step, k);
    StepInHand(s, step, k);
  }

  lemma AttachEffect(s: State, step: Step, k: nat)
    requires Enabled(s, step) && Attaches(s, step) && Attached(s, step) == k && k < |s.subs|
    ensures k < |Apply(s, step).subs| && Apply(s, step).subs[k] == s.subs[k].(owner := Held(step.c))
    ensures Holds(Apply(s, step), k, step.c) && Apply(s, step).clients[step.c].phase.Counting?
  {
  }

  /** Everything taken out of an inbox, written or in hand. */
  ghost function Out(s: State, k: nat): seq<string>
    requires k < |s.subs|
  {
    Messages(s.subs[k].taken) + InHand(s, k)
  }

  lemma StepOut(s: State, step: Step, k: nat)
    requires Inv(s) && Enabled(s, step) && k < |s.subs|
    ensures k < |Apply(s, step).subs| && Out(s, k) <= Out(Apply(s, step), k)
    ensures Apply(s, step).subs[k].channel == s.subs[k].channel && Apply(s, step).subs[k].join == s.subs[k].join
    ensures s.log <= Apply(s, step).log
  {
    Handovers(s, step, k);
    if step.Receive? {
      ReceiveOut(s, step, k);
    } else {
      StepInHand(s, step, k);
    }
  }

  lemma ReceiveOut(s: State, step: Step, k: nat)
    requires Inv(s) && Enabled(s, step) && k < |s.subs| && step.Receive?
    ensures Out(s, k) <= Out(Apply(s, step), k)
  {
    var s' := Apply(s, step);
    assert OwnerOk(s, k) && ClientOk(s, step.c);
    Handovers(s, step, k);
    Transfers(s, step, step.c);
    if s.clients[step.c].subscription == Some(k) {
      assert s.subs[k].owner == Held(step.c);
    } else {
      assert InHand(s', k) == InHand(s, k);
    }
  }

  /** An ATTACH between its halves keeps its subscription. */
  lemma CountingStays(s: State, step: Step, c: nat)
    requires Inv(s) && Enabled(s, step) && !(step.Answer? && step.c == c)
    requires c < |s.clients| && s.clients[c].phase.Counting?
    ensures c < |Apply(s, step).clients|
    ensures
      var x, x' := s.clients[c], Apply(s, step).clients[c];
      x'.phase.Counting? && x'.subscription == x.subscription && x'.replies == x.replies
  {
    assert ClientOk(s, c);
  }

  lemma {:induction false} CountingRun(s: State, steps: seq<Step>, s': State, c: nat, k: nat)
    requires Inv(s) && Run(s, steps, s') && NoAnswer(steps, c) && k < |s.subs|
    requires Holds(s, k, c) && s.clients[c].phase.Counting?
    ensures Inv(s') && Holds(s', k, c) && s'.clients[c].phase.Counting?
    ensures s'.clients[c].replies == s.clients[c].replies
    ensures k < |s'.subs| && Out(s, k) <= Out(s', k) && s.log <= s'.log
    ensures s'.subs[k].channel == s.subs[k].channel && s'.subs[k].join == s.subs[k].join
    decreases |steps|
  {
    if steps != [] {
      CountingStays(s, steps[0], c);
      StepOut(s, steps[0], k);
      StepInv(s, steps[0]);
      CountingRun(Apply(s, steps[0]), steps[1..], s', c, k);
    }
  }

  lemma {:induction false} DeliveredConcat(log: seq<Posting>, channel: string, a: nat, b: nat, c: nat)
    requires a <= b <= c <= |log|
    ensures Delivered(log, channel, a, c) == Delivered(log, channel, a, b) + Delivered(log, channel, b, c)
    decreases c
  {
    if b < c {
      DeliveredConcat(log, channel, a, b, c - 1);
    }
  }

  /** A held subscription's history, all of it up to now. */
  lemma HeldHistory(s: State, k: nat, c: nat)
    requires Inv(s) && Holds(s, k, c) && k < |s.subs|
    ensures s.subs[k].join <= |s.log| && s.subs[k].disposals == 0
    ensures Out(s, k) + s.subs[k].inbox == Delivered(s.log, s.subs[k].channel, s.subs[k].join, |s.log|)
  {
    assert ClientOk(s, c) && OwnerOk(s, k) && HistoryOk(s, k);
  }

  /** What was in the inbox, then what came, is what was taken since, then what is there now. */
  lemma Balance(s: State, s': State, k: nat, c: nat)
    requires Inv(s) && Inv(s') && Holds(s, k, c) && Holds(s', k, c) && k < |s.subs| && k < |s'.subs|
    requires Out(s, k) <= Out(s', k) && s.log <= s'.log
    requires s'.subs[k].channel == s.subs[k].channel && s'.subs[k].join == s.subs[k].join
    ensures s.subs[k].inbox + Delivered(s'.log, s.subs[k].channel, |s.log|, |s'.log|)
      == Out(s', k)[|Out(s, k)|..] + s'.subs[k].inbox
  {
    HeldHistory(s, k, c);
    HeldHistory(s', k, c);
    var channel, join := s.subs[k].channel, s.subs[k].join;
    assert s'.log == s.log + s'.log[|s.log|..];
    DeliveredPrefix(s.log, s'.log[|s.log|..], channel, join, |s.log|);
    DeliveredConcat(s'.log, channel, join, |s.log|, |s'.log|);
    Cancel(Out(s, k), s.subs[k].inbox, Delivered(s'.log, channel, |s.log|, |s'.log|), Out(s', k), s'.subs[k].inbox);
  }

  lemma Cancel(out: seq<string>, inbox: seq<string>, came: seq<string>, out': seq<string>, inbox': seq<string>)
    requires out <= out' && out' + inbox' == out + inbox + came
    ensures inbox + came == out'[|out|..] + inbox'
  {
    var n := |out|;
    assert (out' + inbox')[n..] == out'[n..] + inbox';
    assert (out + inbox + came)[n..] == inbox + came;
  }

  /** The second half of ATTACH reads the inbox as it is by then. */
  lemma CountRead(s: State, c: nat, k: nat, arrived: bool)
    requires PointsAt(s, k, c) && s.clients[c].phase.Counting?
    ensures Enabled(s, Answer(c, arrived))
    ensures Apply(s, Answer(c, arrived)).clients[c].replies == s.clients[c].replies + [OkNumber(Arrived(Inbox(s, k), arrived))]
  {
  }

  /**
    ATTACH answers a number `n`: the backlog it found, plus what was delivered before it read the count,
    minus what its own receiver had taken by then, minus one if the last message was still on its way.
    It is the backlog exactly when those add up to nothing.
   */
  lemma AttachAnswersCount(s: State, c: nat, k: nat, later: seq<Step>, s': State, arrived: bool) returns (n: nat)
    requires Reachable(s) && Holds(s, k, c) && s.clients[c].phase.Counting?
    requires Run(s, later, s') && NoAnswer(later, c)
    ensures c < |s'.clients| && Enabled(s', Answer(c, arrived))
    ensures Apply(s', Answer(c, arrived)).clients[c].replies == s.clients[c].replies + [OkNumber(n)]
    ensures k < |s.subs| && k < |s'.subs| && |s.log| <= |s'.log| && Out(s, k) <= Out(s', k)
    ensures
      var came := Delivered(s'.log, s.subs[k].channel, |s.log|, |s'.log|);
      var gone := Out(s', k)[|Out(s, k)|..];
      var onItsWay := if arrived || s'.subs[k].inbox == [] then 0 else 1;
      && s.subs[k].inbox + came == gone + s'.subs[k].inbox
      && n == |s.subs[k].inbox| + |came| - |gone| - onItsWay
      && (n == |s.subs[k].inbox| <==> |came| == |gone| + onItsWay)
  {
    ReachableInv(s);
    assert ClientOk(s, c);
    CountingRun(s, later, s', c, k);
    Balance(s, s', k, c);
    CountRead(s', c, k, arrived);
    n := Arrived(Inbox(s', k), arrived);
    SameLengths(s, s', k);
  }

  lemma SameLengths(s: State, s': State, k: nat)
    requires k < |s.subs| && k < |s'.subs| && |s.log| <= |s'.log| && |Out(s, k)| <= |Out(s', k)|
    requires s.subs[k].inbox + Delivered(s'.log, s.subs[k].channel, |s.log|, |s'.log|)
      == Out(s', k)[|Out(s, k)|..] + s'.subs[k].inbox
    ensures |s'.subs[k].inbox| == |s.subs[k].inbox| + |Delivered(s'.log, s.subs[k].channel, |s.log|, |s'.log|)|
      - |Out(s', k)[|Out(s, k)|..]|
  {
    var came := Delivered(s'.log, s.subs[k].channel, |s.log|, |s'.log|);
    var gone := Out(s', k)[|Out(s, k)|..];
    assert |s.subs[k].inbox + came| == |gone + s'.subs[k].inbox|;
  }
}
