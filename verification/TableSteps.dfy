/**
  The hash table shared by threads. Each call locks the one bucket of its key, searches it pair by
  pair, links or unlinks a pair, moves the atomic size, and unlocks; calls on different buckets overlap
  freely. `log` records the calls in the order in which they take effect.
 */
module TableSteps {
  import opened Prelude
  import opened TableSpec

  /** A call that took effect: its thread, what it asked, what it answers. */
  datatype Entry<+K, +V> = Entry(thread: nat, op: Op<K, V>, outcome: Outcome<V>)

  /** Where a thread is; `since` is the length of the log when its call began, `at` its own place in the log. */
  datatype Pc<+K, +V> =
    | Idle
    | Ready(op: Op<K, V>, since: nat)
    | Linking(op: Op<K, V>, since: nat)
    | Linked(op: Op<K, V>, since: nat, at: nat)
    | Search(op: Op<K, V>, since: nat, i: nat)
    | Unlinked(op: Op<K, V>, since: nat, at: nat)
    | Answered(op: Op<K, V>, since: nat, at: nat, outcome: Outcome<V>)

  datatype State<+K, +V> = State(
    threads: seq<Pc<K, V>>, buckets: seq<seq<Pair<K, V>>>, locks: seq<Mutex>, size: int, log: seq<Entry<K, V>>)

  datatype Step<+K, +V> = Call(t: nat, op: Op<K, V>) | Go(t: nat)

  function Init<K(!new), V>(c: Config<K>, threads: nat): State<K, V> {
    State(seq(threads, _ => Idle), seq(c.capacity, _ => []), seq(c.capacity, _ => Unlocked), 0, [])
  }

  predicate Enabled<K(!new), V>(c: Config<K>, s: State<K, V>, step: Step<K, V>)
    requires c.capacity > 0
  {
    && step.t < |s.threads|
    && |s.buckets| == |s.locks| == c.capacity
    && match step
       case Call(t, _) => s.threads[t].Idle?
       case Go(t) =>
         && !s.threads[t].Idle?
         && (s.threads[t].Ready? ==> s.locks[c.IndexOf(s.threads[t].op.key)].Unlocked?)
  }

  function Apply<K(!new), V>(c: Config<K>, s: State<K, V>, step: Step<K, V>): State<K, V>
    requires c.capacity > 0 && Enabled(c, s, step)
  {
    match step
    case Call(t, op) => s.(threads := s.threads[t := Ready(op, |s.log|)])
    case Go(t) => Move(c, s, t, s.threads[t], c.IndexOf(s.threads[t].op.key))
  }

  function Move<K(!new), V>(c: Config<K>, s: State<K, V>, t: nat, pc: Pc<K, V>, b: nat): State<K, V>
    requires t < |s.threads| && !pc.Idle? && b < |s.buckets| == |s.locks|
  {
    match pc
    case Ready(op, since) =>
      s.(locks := s.locks[b := HeldBy(t)],
         threads := s.threads[t := if op.Insert? then Linking(op, since) else Search(op, since, 0)])
    case Linking(op, since) =>
      var value := if op.Insert? then op.value else Null;
      s.(buckets := s.buckets[b := [Pair(op.key, value)] + s.buckets[b]],
         threads := s.threads[t := Linked(op, since, |s.log|)],
         log := s.log + [Entry(t, op, Outcome(0, Null))])
    case Linked(op, since, at) =>
      s.(size := s.size + 1, threads := s.threads[t := Answered(op, since, at, Outcome(0, Null))])
    case Search(op, since, i) =>
      if i >= |s.buckets[b]| then
        s.(threads := s.threads[t := Answered(op, since, |s.log|, Outcome(1, Null))],
           log := s.log + [Entry(t, op, Outcome(1, Null))])
      else if !c.same(op.key, s.buckets[b][i].key) then
        s.(threads := s.threads[t := Search(op, since, i + 1)])
      else if op.Delete? then
        s.(buckets := s.buckets[b := Without(s.buckets[b], i)],
           threads := s.threads[t := Unlinked(op, since, |s.log|)],
           log := s.log + [Entry(t, op, Outcome(0, Null))])
      else
        var outcome := Outcome(0, if op.Get? then s.buckets[b][i].value else Null);
        s.(threads := s.threads[t := Answered(op, since, |s.log|, outcome)],
           log := s.log + [Entry(t, op, outcome)])
    case Unlinked(op, since, at) =>
      s.(size := s.size - 1, threads := s.threads[t := Answered(op, since, at, Outcome(0, Null))])
    case Answered(_, _, _, _) =>
      s.(locks := s.locks[b := Unlocked], threads := s.threads[t := Idle])
  }

  ghost predicate Run<K(!new), V>(c: Config<K>, s: State<K, V>, steps: seq<Step<K, V>>, s': State<K, V>)
    requires c.capacity > 0
    decreases |steps|
  {
    if steps == [] then s == s'
    else Enabled(c, s, steps[0]) && Run(c, Apply(c, s, steps[0]), steps[1..], s')
  }

  // ---- The counting ------------------------------------------------------------------------------

  /** How many pairs a thread has linked but not counted (a negative number: unlinked but not discounted). */
  function Owes<K, V>(pc: Pc<K, V>): int {
    if pc.Linked? then 1 else if pc.Unlinked? then -1 else 0
  }

  function Self(x: int): int { x }

  predicate Holds<K, V>(pc: Pc<K, V>) {
    !pc.Idle? && !pc.Ready?
  }

  ghost predicate Locks<K(!new), V>(c: Config<K>, s: State<K, V>)
    requires c.capacity > 0
  {
    && |s.buckets| == |s.locks| == c.capacity
    && (forall t :: 0 <= t < |s.threads| && Holds(s.threads[t]) ==>
          s.locks[c.IndexOf(s.threads[t].op.key)] == HeldBy(t))
    && (forall b :: 0 <= b < |s.locks| && s.locks[b].HeldBy? ==>
          && s.locks[b].thread < |s.threads|
          && Holds(s.threads[s.locks[b].thread])
          && c.IndexOf(s.threads[s.locks[b].thread].op.key) == b)
  }

  /** What the holder of a thread's own bucket knows about it. */
  ghost predicate Local<K(!new), V>(c: Config<K>, s: State<K, V>, t: nat, pc: Pc<K, V>)
    requires c.capacity > 0 && |s.buckets| == c.capacity
  {
    !pc.Idle? ==>
      var bucket := s.buckets[c.IndexOf(pc.op.key)];
      && (pc.Linking? || pc.Linked? ==> pc.op.Insert?)
      && (pc.Search? ==> !pc.op.Insert?)
      && (pc.Linked? ==> bucket != [])
      && (pc.Search? ==>
            && pc.i <= |bucket|
            && forall j :: 0 <= j < pc.i ==> !c.same(pc.op.key, bucket[j].key))
      && pc.since <= |s.log|
      && (pc.Linked? || pc.Unlinked? ==>
            pc.since <= pc.at < |s.log| && s.log[pc.at] == Entry(t, pc.op, Outcome(0, Null)))
      && (pc.Answered? ==>
            pc.since <= pc.at < |s.log| && s.log[pc.at] == Entry(t, pc.op, pc.outcome))
  }

  /** What a bucket adds to the size: its length, but for the pair its lock's holder has not yet accounted for. */
  function Balance<K, V>(s: State<K, V>, b: nat): int
    requires b < |s.buckets| == |s.locks|
  {
    |s.buckets[b]| -
    (if s.locks[b].HeldBy? && s.locks[b].thread < |s.threads| then Owes(s.threads[s.locks[b].thread]) else 0)
  }

  function Balances<K, V>(s: State<K, V>): seq<int>
    requires |s.buckets| == |s.locks|
  {
    seq(|s.buckets|, b requires 0 <= b < |s.buckets| => Balance(s, b))
  }

  // ---- The order in which calls take effect ----------------------------------------------------------

  /** The stack of a key after the first `n` calls of a log, run one after the other on an empty table. */
  ghost function Replay<K(!new), V>(c: Config<K>, log: seq<Entry<K, V>>, n: nat, key: K): seq<Ptr<V>>
    requires n <= |log|
  {
    if n == 0 then []
    else
      var before := Replay(c, log, n - 1, key);
      if c.same(key, log[n - 1].op.key) then After(log[n - 1].op, before) else before
  }

  lemma {:induction false} ReplayPrefix<K(!new), V>(c: Config<K>, log: seq<Entry<K, V>>, more: seq<Entry<K, V>>, n: nat, key: K)
    requires n <= |log|
    ensures Replay(c, log + more, n, key) == Replay(c, log, n, key)
  {
    if n > 0 {
      ReplayPrefix(c, log, more, n - 1, key);
    }
  }

  /** The buckets hold the stacks that the log leaves, and every call answered what its place in the log demands. */
  ghost predicate Serial<K(!new), V>(c: Config<K>, s: State<K, V>)
    requires c.capacity > 0 && |s.buckets| == c.capacity
  {
    && (forall key :: StackOf(c, s.buckets[c.IndexOf(key)], key) == Replay(c, s.log, |s.log|, key))
    && Answers(c, s.log)
  }

  ghost predicate Answers<K(!new), V>(c: Config<K>, log: seq<Entry<K, V>>) {
    forall i :: 0 <= i < |log| ==> log[i].outcome == Answer(log[i].op, Replay(c, log, i, log[i].op.key))
  }

  ghost predicate Inv<K(!new), V>(c: Config<K>, s: State<K, V>) {
    && c.Valid()
    && Locks(c, s)
    && (forall t :: 0 <= t < |s.threads| ==> Local(c, s, t, s.threads[t]))
    && Sum(s.buckets, Length) == s.size + Sum(s.threads, Owes)
    && Sum(Balances(s), Self) == s.size
    && Serial(c, s)
  }

  lemma InitInv<K(!new), V>(c: Config<K>, threads: nat)
    requires c.Valid()
    ensures Inv<K, V>(c, Init(c, threads))
  {
    var s := Init<K, V>(c, threads);
    SumToZero(s.buckets, Length, |s.buckets|);
    SumToZero(s.threads, Owes, |s.threads|);
    SumToZero(Balances(s), Self, |s.buckets|);
  }

  // ---- One step ----------------------------------------------------------------------------------

  /** A step of a thread touches its own counter, and its own bucket and lock; the bucket only under the lock. */
  ghost predicate Frame<K(!new), V>(c: Config<K>, s: State<K, V>, t: nat, s': State<K, V>)
    requires c.capacity > 0 && t < |s.threads|
  {
    && |s'.threads| == |s.threads| && |s'.buckets| == |s.buckets| && |s'.locks| == |s.locks|
    && (forall u :: 0 <= u < |s.threads| && u != t ==> s'.threads[u] == s.threads[u])
    && (forall d :: 0 <= d < |s.buckets| && s'.buckets[d] != s.buckets[d] ==>
          Holds(s.threads[t]) && d == c.IndexOf(s.threads[t].op.key))
    && |s.log| <= |s'.log| && s'.log[..|s.log|] == s.log
  }

  lemma StepFrame<K(!new), V>(c: Config<K>, s: State<K, V>, step: Step<K, V>)
    requires c.capacity > 0 && Enabled(c, s, step)
    ensures Frame(c, s, step.t, Apply(c, s, step))
  {
  }

  /** What a step does to the locks: it takes a free one, gives back its own, or leaves all alone. */
  ghost predicate LockMoves<K(!new), V>(c: Config<K>, s: State<K, V>, t: nat, s': State<K, V>)
    requires c.capacity > 0 && t < |s.threads| == |s'.threads| && |s.locks| == c.capacity
  {
    var pc := s.threads[t];
    var pc' := s'.threads[t];
    && (!pc.Idle? && !pc'.Idle? ==> pc'.op == pc.op)
    && if pc.Ready? then
         var b := c.IndexOf(pc.op.key);
         Holds(pc') && s.locks[b].Unlocked? && s'.locks == s.locks[b := HeldBy(t)]
       else if pc.Answered? then pc'.Idle? && s'.locks == s.locks[c.IndexOf(pc.op.key) := Unlocked]
       else (Holds(pc') <==> Holds(pc)) && s'.locks == s.locks
  }

  lemma StepLockMoves<K(!new), V>(c: Config<K>, s: State<K, V>, step: Step<K, V>)
    requires c.capacity > 0 && Enabled(c, s, step)
    ensures LockMoves(c, s, step.t, Apply(c, s, step))
  {
  }

  lemma LocksKept<K(!new), V>(c: Config<K>, s: State<K, V>, t: nat, s': State<K, V>)
    requires c.capacity > 0 && Locks(c, s) && t < |s.threads| && Frame(c, s, t, s') && LockMoves(c, s, t, s')
    ensures Locks(c, s')
  {
  }

  /** A step of one thread keeps what another thread knows: only the lock's holder changes a bucket. */
  lemma LocalStable<K(!new), V>(c: Config<K>, s: State<K, V>, t: nat, s': State<K, V>, u: nat)
    requires c.capacity > 0 && Locks(c, s) && t < |s.threads| && Frame(c, s, t, s')
    requires u < |s.threads| && u != t && Local(c, s, u, s.threads[u])
    ensures Local(c, s', u, s'.threads[u])
  {
    var pc := s.threads[u];
    if !pc.Idle? && Holds(pc) {
      assert s'.buckets[c.IndexOf(pc.op.key)] == s.buckets[c.IndexOf(pc.op.key)];
      assert forall i :: 0 <= i < |s.log| ==> s'.log[i] == s'.log[..|s.log|][i];
    }
  }

  lemma StepLocal<K(!new), V>(c: Config<K>, s: State<K, V>, step: Step<K, V>)
    requires Inv(c, s) && Enabled(c, s, step)
    ensures var s' := Apply(c, s, step); Local(c, s', step.t, s'.threads[step.t])
  {
    assert Local(c, s, step.t, s.threads[step.t]);
    if step.Go? && s.threads[step.t].Search? {
      SearchLocal(c, s, step.t);
    }
  }

  lemma SearchLocal<K(!new), V>(c: Config<K>, s: State<K, V>, t: nat)
    requires Inv(c, s) && t < |s.threads| && s.threads[t].Search? && Local(c, s, t, s.threads[t])
    ensures Enabled(c, s, Go(t))
    ensures var s' := Apply(c, s, Go(t)); Local(c, s', t, s'.threads[t])
  {
  }

  lemma StepCounts<K(!new), V>(c: Config<K>, s: State<K, V>, step: Step<K, V>)
    requires Inv(c, s) && Enabled(c, s, step)
    ensures var s' := Apply(c, s, step); Sum(s'.buckets, Length) == s'.size + Sum(s'.threads, Owes)
  {
    var s' := Apply(c, s, step);
    SumUpdate(s.threads, step.t, s'.threads[step.t], Owes);
    if step.Go? {
      var b := c.IndexOf(s.threads[step.t].op.key);
      assert s'.buckets == s.buckets[b := s'.buckets[b]];
      SumUpdate(s.buckets, b, s'.buckets[b], Length);
    }
  }

  lemma StepBalances<K(!new), V>(c: Config<K>, s: State<K, V>, step: Step<K, V>)
    requires Inv(c, s) && Enabled(c, s, step)
    ensures Sum(Balances(Apply(c, s, step)), Self) == Apply(c, s, step).size
  {
    var s' := Apply(c, s, step);
    StepFrame(c, s, step);
    StepLockMoves(c, s, step);
    if step.Call? {
      assert forall d :: 0 <= d < |s.buckets| ==> Balance(s', d) == Balance(s, d);
      assert Balances(s') == Balances(s);
    } else {
      var b := c.IndexOf(s.threads[step.t].op.key);
      OtherBalances(c, s, step.t, s');
      OwnBalance(c, s, step);
      assert Balances(s') == Balances(s)[b := Balance(s', b)];
      SumUpdate(Balances(s), b, Balance(s', b), Self);
    }
  }

  lemma OtherBalances<K(!new), V>(c: Config<K>, s: State<K, V>, t: nat, s': State<K, V>)
    requires c.capacity > 0 && Locks(c, s) && t < |s.threads| && Frame(c, s, t, s') && LockMoves(c, s, t, s')
    requires !s.threads[t].Idle?
    ensures forall d :: 0 <= d < |s.buckets| && d != c.IndexOf(s.threads[t].op.key) ==>
      Balance(s', d) == Balance(s, d)
  {
  }

  /** What a step adds to the balance of its own bucket it adds to the size. */
  lemma OwnBalance<K(!new), V>(c: Config<K>, s: State<K, V>, step: Step<K, V>)
    requires Inv(c, s) && Enabled(c, s, step) && step.Go?
    ensures
      var s' := Apply(c, s, step);
      var b := c.IndexOf(s.threads[step.t].op.key);
      Balance(s', b) - Balance(s, b) == s'.size - s.size
  {
  }

  /** The step that records a call changes the stack of its key as the call should, and no other stack. */
  lemma StepSerial<K(!new), V>(c: Config<K>, s: State<K, V>, step: Step<K, V>)
    requires Inv(c, s) && Enabled(c, s, step)
    ensures Serial(c, Apply(c, s, step))
  {
    var s' := Apply(c, s, step);
    if s'.log == s.log {
      Unrecorded(c, s, step);
    } else {
      forall key ensures Effect(c, s, step, key) {
        Recorded(c, s, step, key);
      }
      StacksFollow(c, s, step);
      assert Effect(c, s, step, s.threads[step.t].op.key);
      AnswersFollow(c, s.log, s'.log[|s.log|]);
    }
  }

  lemma Unrecorded<K(!new), V>(c: Config<K>, s: State<K, V>, step: Step<K, V>)
    requires c.capacity > 0 && Enabled(c, s, step) && Apply(c, s, step).log == s.log
    ensures Apply(c, s, step).buckets == s.buckets
  {
  }

  /** The recording step, seen by the stack of one key. */
  ghost predicate Effect<K(!new), V>(c: Config<K>, s: State<K, V>, step: Step<K, V>, key: K)
    requires c.capacity > 0 && Enabled(c, s, step) && step.Go?
  {
    var s' := Apply(c, s, step);
    var op := s.threads[step.t].op;
    var stack := StackOf(c, s.buckets[c.IndexOf(key)], key);
    && |s'.log| == |s.log| + 1
    && s'.log == s.log + [Entry(step.t, op, s'.log[|s.log|].outcome)]
    && (key == op.key ==> s'.log[|s.log|].outcome == Answer(op, stack))
    && |s'.buckets| == c.capacity
    && StackOf(c, s'.buckets[c.IndexOf(key)], key) == if c.same(key, op.key) then After(op, stack) else stack
  }

  lemma StacksFollow<K(!new), V>(c: Config<K>, s: State<K, V>, step: Step<K, V>)
    requires c.capacity > 0 && Enabled(c, s, step) && step.Go? && Serial(c, s)
    requires forall key :: Effect(c, s, step, key)
    ensures
      var s' := Apply(c, s, step);
      |s'.buckets| == c.capacity &&
      forall key :: StackOf(c, s'.buckets[c.IndexOf(key)], key) == Replay(c, s'.log, |s'.log|, key)
  {
    var s' := Apply(c, s, step);
    assert Effect(c, s, step, s.threads[step.t].op.key);
    forall key
      ensures StackOf(c, s'.buckets[c.IndexOf(key)], key) == Replay(c, s'.log, |s'.log|, key)
    {
      assert Effect(c, s, step, key);
      ReplayPrefix(c, s.log, s'.log[|s.log|..], |s.log|, key);
    }
  }

  lemma AnswersFollow<K(!new), V>(c: Config<K>, log: seq<Entry<K, V>>, e: Entry<K, V>)
    requires Answers(c, log) && e.outcome == Answer(e.op, Replay(c, log, |log|, e.op.key))
    ensures Answers(c, log + [e])
  {
    var more := log + [e];
    forall i | 0 <= i < |more|
      ensures more[i].outcome == Answer(more[i].op, Replay(c, more, i, more[i].op.key))
    {
      ReplayPrefix(c, log, [e], i, more[i].op.key);
    }
  }

  lemma Recorded<K(!new), V>(c: Config<K>, s: State<K, V>, step: Step<K, V>, key: K)
    requires Inv(c, s) && Enabled(c, s, step)
    requires Apply(c, s, step).log != s.log
    ensures step.Go? && Effect(c, s, step, key)
  {
    var s' := Apply(c, s, step);
    var pc := s.threads[step.t];
    var op := pc.op;
    var b := c.IndexOf(op.key);
    var bucket := s.buckets[b];
    assert Local(c, s, step.t, pc);
    if pc.Linking? {
      assert s'.buckets[b][1..] == bucket;
    } else if pc.i == |bucket| {
      NoMatch(c, bucket, op.key, op.key);
      if c.same(key, op.key) {
        NoMatch(c, bucket, op.key, key);
      }
    } else {
      FirstMatch(c, bucket, op.key, pc.i, key);
    }
  }

  lemma {:induction false} RunInv<K(!new), V>(c: Config<K>, s: State<K, V>, steps: seq<Step<K, V>>, s': State<K, V>)
    requires Inv(c, s) && Run(c, s, steps, s')
    ensures Inv(c, s')
    decreases |steps|
  {
    if steps != [] {
      var next := Apply(c, s, steps[0]);
      StepLockMoves(c, s, steps[0]);
      StepCounts(c, s, steps[0]);
      StepBalances(c, s, steps[0]);
      StepSerial(c, s, steps[0]);
      StepFrame(c, s, steps[0]);
      LocksKept(c, s, steps[0].t, next);
      StepLocal(c, s, steps[0]);
      forall t | 0 <= t < |next.threads| ensures Local(c, next, t, next.threads[t]) {
        if t != steps[0].t {
          LocalStable(c, s, steps[0].t, next, t);
        }
      }
      RunInv(c, next, steps[1..], s');
    }
  }

  // ---- The theorems ------------------------------------------------------------------------------

  /**
    The number of pairs in the table is the atomic size, plus the inserters that have linked and not yet
    counted, minus the deleters that have unlinked and not yet discounted; the size is never negative.
   */
  lemma SizeAccounting<K(!new), V>(c: Config<K>, threads: nat, steps: seq<Step<K, V>>, s: State<K, V>)
    requires c.Valid() && Run(c, Init(c, threads), steps, s)
    ensures Sum(s.buckets, Length) == s.size + Sum(s.threads, Owes)
    ensures s.size >= 0
  {
    InitInv<K, V>(c, threads);
    RunInv(c, Init(c, threads), steps, s);
    BalancesPositive(c, s);
    SumToBounds(Balances(s), Self, |s.buckets|);
  }

  lemma BalancesPositive<K(!new), V>(c: Config<K>, s: State<K, V>)
    requires Inv(c, s)
    ensures forall b :: 0 <= b < |s.buckets| ==> Balance(s, b) >= 0
    ensures forall t :: 0 <= t < |s.threads| && s.threads[t].Unlinked? ==>
      Balance(s, c.IndexOf(s.threads[t].op.key)) >= 1
  {
    forall b | 0 <= b < |s.buckets| ensures Balance(s, b) >= 0 {
      if s.locks[b].HeldBy? {
        assert Local(c, s, s.locks[b].thread, s.threads[s.locks[b].thread]);
      }
    }
  }

  /** A deleter that is about to take one from the size finds it positive: the atomic never underflows. */
  lemma NeverUnderflows<K(!new), V>(c: Config<K>, threads: nat, steps: seq<Step<K, V>>, s: State<K, V>, t: nat)
    requires c.Valid() && Run(c, Init(c, threads), steps, s)
    requires t < |s.threads| && s.threads[t].Unlinked?
    ensures s.size >= 1
  {
    InitInv<K, V>(c, threads);
    RunInv(c, Init(c, threads), steps, s);
    BalancesPositive(c, s);
    SumToBounds(Balances(s), Self, |s.buckets|);
    var b := c.IndexOf(s.threads[t].op.key);
    assert Self(Balances(s)[b]) >= 1;
  }

  /** Whenever no thread is between a link and its count or an unlink and its discount, the size is exact. */
  lemma SizeExactWhenSettled<K(!new), V>(c: Config<K>, threads: nat, steps: seq<Step<K, V>>, s: State<K, V>)
    requires c.Valid() && Run(c, Init(c, threads), steps, s)
    requires forall t :: 0 <= t < |s.threads| ==> !s.threads[t].Linked? && !s.threads[t].Unlinked?
    ensures Sum(s.buckets, Length) == s.size
  {
    SizeAccounting(c, threads, steps, s);
    SumToZero(s.threads, Owes, |s.threads|);
  }

  /**
    The concurrent table behaves as if its calls ran one at a time in the order of the log: every answer
    is the one the stack of its key demands at its place in the log, and a call that is about to return
    took effect after it began.
   */
  lemma Linearizable<K(!new), V>(c: Config<K>, threads: nat, steps: seq<Step<K, V>>, s: State<K, V>)
    requires c.Valid() && Run(c, Init(c, threads), steps, s)
    ensures |s.buckets| == c.capacity
    ensures forall key :: StackOf(c, s.buckets[c.IndexOf(key)], key) == Replay(c, s.log, |s.log|, key)
    ensures forall i :: 0 <= i < |s.log| ==>
      s.log[i].outcome == Answer(s.log[i].op, Replay(c, s.log, i, s.log[i].op.key))
    ensures forall t :: 0 <= t < |s.threads| && s.threads[t].Answered? ==>
      var pc := s.threads[t];
      pc.since <= pc.at < |s.log| && s.log[pc.at] == Entry(t, pc.op, pc.outcome)
  {
    InitInv<K, V>(c, threads);
    RunInv(c, Init(c, threads), steps, s);
    forall t | 0 <= t < |s.threads| && s.threads[t].Answered?
      ensures var pc := s.threads[t];
        pc.since <= pc.at < |s.log| && s.log[pc.at] == Entry(t, pc.op, pc.outcome)
    {
      assert Local(c, s, t, s.threads[t]);
    }
  }
}
