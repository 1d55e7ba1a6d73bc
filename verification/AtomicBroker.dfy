/**
  What the broker promises, as a machine with no threads in it: a log per channel name, and subscribers
  that read on from where they joined. Every step is atomic.
 */
module AtomicBroker {
  import opened Prelude

  /** A subscriber has read the first `taken` messages logged on its channel since length `join`. */
  datatype Subscriber = Subscriber(name: string, join: nat, taken: nat, open: bool)

  datatype State<M> = State(logs: map<string, seq<M>>, subs: map<nat, Subscriber>)

  datatype Step<+M> =
    | Append(name: string, message: M)
    | Join(p: nat, name: string)
    | Take(p: nat, message: M)
    | Close(p: nat)
    | CloseAll
    | Nothing

  function Empty<M>(): State<M> {
    State(map[], map[])
  }

  function Log<M>(a: State<M>, name: string): seq<M> {
    if name in a.logs then a.logs[name] else []
  }

  /** A subscriber takes the next message of its channel's log, and nothing else. */
  ghost predicate Enabled<M>(a: State<M>, step: Step<M>) {
    match step
    case Append(_, _) => true
    case Join(p, _) => p !in a.subs
    case Take(p, message) =>
      && p in a.subs && a.subs[p].open
      && a.subs[p].join + a.subs[p].taken < |Log(a, a.subs[p].name)|
      && message == Log(a, a.subs[p].name)[a.subs[p].join + a.subs[p].taken]
    case Close(p) => p in a.subs && a.subs[p].open
    case CloseAll => true
    case Nothing => true
  }

  ghost function Apply<M>(a: State<M>, step: Step<M>): State<M>
    requires Enabled(a, step)
  {
    match step
    case Append(name, message) => a.(logs := a.logs[name := Log(a, name) + [message]])
    case Join(p, name) => a.(subs := a.subs[p := Subscriber(name, |Log(a, name)|, 0, true)])
    case Take(p, _) => a.(subs := a.subs[p := a.subs[p].(taken := a.subs[p].taken + 1)])
    case Close(p) => a.(subs := a.subs[p := a.subs[p].(open := false)])
    case CloseAll => a.(subs := map p | p in a.subs :: a.subs[p].(open := false))
    case Nothing => a
  }

  ghost predicate Run<M>(a: State<M>, steps: seq<Step<M>>, a': State<M>)
    decreases |steps|
  {
    if steps == [] then a == a'
    else Enabled(a, steps[0]) && Run(Apply(a, steps[0]), steps[1..], a')
  }

  // ---- A step, seen by one log and by one subscriber ---------------------------------------------

  /** What a step adds to the log of a name. */
  function Appended<M>(step: Step<M>, name: string): seq<M> {
    if step.Append? && step.name == name then [step.message] else []
  }

  lemma LogMoves<M>(a: State<M>, step: Step<M>, name: string)
    requires Enabled(a, step)
    ensures Log(Apply(a, step), name) == Log(a, name) + Appended(step, name)
  {
  }

  /** What a step makes of subscriber `p`. */
  function Moved<M>(v: Subscriber, step: Step<M>, p: nat): Subscriber {
    match step
    case Take(q, _) => if q == p then v.(taken := v.taken + 1) else v
    case Close(q) => if q == p then v.(open := false) else v
    case CloseAll => v.(open := false)
    case _ => v
  }

  lemma SubscriberMoves<M>(a: State<M>, step: Step<M>, p: nat)
    requires Enabled(a, step)
    ensures p in Apply(a, step).subs <==> p in a.subs || (step.Join? && step.p == p)
    ensures p in a.subs ==> Apply(a, step).subs[p] == Moved(a.subs[p], step, p)
    ensures step.Join? ==> Apply(a, step).subs[step.p] == Subscriber(step.name, |Log(a, step.name)|, 0, true)
  {
  }
}
