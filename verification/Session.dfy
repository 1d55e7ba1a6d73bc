/**
  The network server's sessions as a step system: client threads that read commands, the receiver
  thread of each session, the detached list, and the broker workers that deliver messages.

  A command is one step where the handler touches shared state once. Three handlers touch it more
  often and are cut there: DETACH stops its receiver, then joins it and puts the subscription on the
  list, then reads the id through the pointer it still has; ATTACH takes the subscription off the list
  and starts a receiver, then reads the number of pending messages; an exit stops its receiver, then
  joins it and frees. A receiver tests `_active`, takes a message and writes it in separate steps.
  `Close` is `network_server_free`, once every client has gone.
 */
module Session {
  import opened Prelude
  import opened DetachedList

  const MAX_CONTENT_SIZE: nat := 65536

  /** The first word of a command line, by what it is compared with. */
  datatype Word = AUTH | SUBSCRIBE | PUBLISH | ATTACH | DETACH | QUIT | Other

  /**
    A command line as scanned: two fields or more (`length` is the third, 0 without one; `number` the
    second read as a decimal number), or a line with fewer. `content` is what follows a PUBLISH line,
    `None` when one read does not return `length` bytes: the connection ends, or the content is spread
    over more than one TLS record.
   */
  datatype Request =
    | Fields(word: Word, argument: string, length: nat, number: nat, content: Option<string>)
    | Bare(word: Word)

  datatype Reason =
    | AlreadyAuthenticated | InvalidKey | AuthenticationRequired | AlreadySubscribed | NotSubscribed
    | SubscriptionNotFound | ContentTooLarge | ContentUnreadable | UnknownCommand | InvalidFormat

  /** `OkStale` is an id read from a subscription that has been freed. */
  datatype Reply = Ok | OkNumber(number: nat) | OkStale | Bye | Err(reason: Reason)

  datatype Action = Auth | Denied | Subscribe | Publish | Attach | Detach | Quit | Unknown | Invalid

  /** The command loop's choice of a handler. */
  function Choose(authenticated: bool, request: Request): Action {
    match request
    case Fields(word, _, length, _, _) =>
      if word.AUTH? then Auth
      else if !authenticated then Denied
      else if word.SUBSCRIBE? then Subscribe
      else if word.PUBLISH? && length > 0 then Publish
      else if word.ATTACH? then Attach
      else if word.QUIT? then Quit
      else Unknown
    case Bare(word) =>
      if word.DETACH? then if !authenticated then Denied else Detach
      else if word.QUIT? then Quit
      else Invalid
  }

  /** A receiver thread: about to test `_active`, about to take a message, or writing the one it took. */
  datatype Receiver = Off | Testing | Taking | Writing(message: string)

  /**
    A client thread: reading its next command; in ATTACH, about to read the pending count; in DETACH,
    joining its receiver; in DETACH, about to read the id of the subscription it has put on the list; at
    its exit, joining its receiver; finished.
   */
  datatype Phase = Serving | Counting | Detaching | Answering | Leaving | Gone

  datatype Client = Client(
    phase: Phase, authenticated: bool, subscription: Option<nat>, detached: bool, active: bool,
    receiver: Receiver, replies: seq<Reply>)

  /** Who a subscription belongs to, as a history of the calls that handed it over. */
  datatype Owner = Held(client: nat) | Shelved | Freed

  /** A message that a receiver has taken out and tried to write, and whether the write succeeded. */
  datatype Taken = Taken(message: string, written: bool)

  /**
    A subscription: `join` is the length of the delivery log when it was made, `closed` the length when
    it was unsubscribed; `taken` is what its receivers have dealt with, over all its sessions. `inbox` is
    what else has been delivered on its channel; the last message of it may still be on its way, while
    the delivery walks the channel's subscribers.
   */
  datatype Sub = Sub(
    channel: string, join: nat, closed: Option<nat>, inbox: seq<string>, taken: seq<Taken>,
    disposals: nat, owner: Owner)

  /** What `strlen` sees of a buffer: everything before the first NUL. */
  function CString(s: string): (r: string)
    ensures r <= s && '\0' !in r
  {
    if s == "" || s[0] == '\0' then "" else [s[0]] + CString(s[1..])
  }

  datatype Posting = Posting(channel: string, content: string)

  /** Subscription number `k` of `subs` has the id `k + 1`. */
  datatype State = State(
    key: Option<string>, clients: seq<Client>, detached: seq<Entry<nat>>, subs: seq<Sub>,
    pending: seq<Posting>, log: seq<Posting>, down: bool)

  /**
    In `Answer` and in a receiver's attempt to take a message, the flag says whether the last message of
    the inbox has arrived; in a receiver's write, whether the write succeeds.
   */
  datatype Step =
    | Accept
    | Ask(c: nat, request: Request)
    | HangUp(c: nat)
    | Joined(c: nat)
    | Answer(c: nat, arrived: bool)
    | Receive(c: nat, ok: bool)
    | Deliver(task: nat)
    | Close

  function Init(key: Option<string>): State {
    State(key, [], [], [], [], [], false)
  }

  const Newcomer: Client := Client(Serving, false, None, false, false, Off, [])

  predicate Enabled(s: State, step: Step) {
    match step
    case Accept => !s.down
    case Ask(c, request) =>
      && c < |s.clients| && s.clients[c].phase.Serving?
      && (request.Fields? && request.content.Some? ==> |request.content.value| == request.length)
    case HangUp(c) => c < |s.clients| && s.clients[c].phase.Serving?
    case Joined(c) =>
      && c < |s.clients|
      && (s.clients[c].phase.Detaching? || s.clients[c].phase.Leaving?)
      && (s.clients[c].subscription.Some? && (s.clients[c].phase.Detaching? || !s.clients[c].detached) ==>
            s.clients[c].receiver.Off?)
    case Answer(c, _) => c < |s.clients| && (s.clients[c].phase.Counting? || s.clients[c].phase.Answering?)
    case Receive(c, _) => c < |s.clients| && !s.clients[c].receiver.Off? && s.clients[c].subscription.Some?
    case Deliver(task) => task < |s.pending|
    case Close => !s.down && forall c :: 0 <= c < |s.clients| ==> s.clients[c].phase.Gone?
  }

  /** A step of one client's thread or of its receiver. */
  predicate OfClient(step: Step) {
    !step.Accept? && !step.Deliver? && !step.Close?
  }

  // ---- What a step does --------------------------------------------------------------------------

  predicate Asks(s: State, step: Step, action: Action) {
    step.Ask? && step.c < |s.clients| && Choose(s.clients[step.c].authenticated, step.request) == action
  }

  predicate Subscribes(s: State, step: Step) {
    Asks(s, step, Subscribe) && s.clients[step.c].subscription.None?
  }

  predicate Attaches(s: State, step: Step) {
    && Asks(s, step, Attach) && s.clients[step.c].subscription.None?
    && FirstAt(s.detached, step.request.number) < |s.detached|
  }

  /** The subscription that an ATTACH finds. */
  function Attached(s: State, step: Step): nat
    requires Attaches(s, step)
  {
    s.detached[FirstAt(s.detached, step.request.number)].subscription
  }

  predicate Publishes(s: State, step: Step) {
    && Asks(s, step, Publish)
    && step.request.length <= MAX_CONTENT_SIZE && step.request.content.Some?
  }

  /** DETACH joins its receiver and puts the subscription on the list. */
  predicate Shelves(s: State, step: Step) {
    && step.Joined? && step.c < |s.clients|
    && s.clients[step.c].phase.Detaching? && s.clients[step.c].subscription.Some?
  }

  /** A client exit that unsubscribes and frees. */
  predicate Disposes(s: State, step: Step) {
    && step.Joined? && step.c < |s.clients|
    && s.clients[step.c].phase.Leaving? && s.clients[step.c].subscription.Some? && !s.clients[step.c].detached
  }

  function Inbox(s: State, k: nat): seq<string> {
    if k < |s.subs| then s.subs[k].inbox else []
  }

  predicate Disposed(s: State, k: nat) {
    k < |s.subs| && s.subs[k].disposals > 0
  }

  /** The answer to a command, if it is sent at once. */
  function AnswerTo(s: State, step: Step): seq<Reply>
    requires step.Ask? && step.c < |s.clients|
  {
    var client := s.clients[step.c];
    match Choose(client.authenticated, step.request)
    case Auth =>
      if client.authenticated then [Err(AlreadyAuthenticated)]
      else if s.key.None? || s.key.value == step.request.argument then [Ok]
      else [Err(InvalidKey)]
    case Denied => [Err(AuthenticationRequired)]
    case Subscribe =>
      if client.subscription.Some? then [Err(AlreadySubscribed)] else [OkNumber(|s.subs| + 1)]
    case Publish =>
      if step.request.length > MAX_CONTENT_SIZE then [Err(ContentTooLarge)]
      else if step.request.content.None? then [Err(ContentUnreadable)]
      else [Ok]
    case Attach =>
      if client.subscription.Some? then [Err(AlreadySubscribed)]
      else if !Attaches(s, step) then [Err(SubscriptionNotFound)]
      else []
    case Detach => if client.subscription.None? then [Err(NotSubscribed)] else []
    case Quit => [Bye]
    case Unknown => [Err(UnknownCommand)]
    case Invalid => [Err(InvalidFormat)]
  }

  /** What a command does to its client, apart from the reply. */
  datatype Change = NoChange | Authenticates | Opens(k: nat, counting: bool) | Detaches | Quits

  function ChangeBy(s: State, step: Step): Change
    requires step.Ask? && step.c < |s.clients|
  {
    match Choose(s.clients[step.c].authenticated, step.request)
    case Auth =>
      if !s.clients[step.c].authenticated && (s.key.None? || s.key.value == step.request.argument) then Authenticates
      else NoChange
    case Subscribe => if Subscribes(s, step) then Opens(|s.subs|, false) else NoChange
    case Attach => if Attaches(s, step) then Opens(Attached(s, step), true) else NoChange
    case Detach => if s.clients[step.c].subscription.Some? then Detaches else NoChange
    case Quit => Quits
    case _ => NoChange
  }

  function Changed(client: Client, change: Change): Client {
    match change
    case NoChange => client
    case Authenticates => client.(authenticated := true)
    case Opens(k, counting) =>
      client.(phase := if counting then Counting else Serving, subscription := Some(k), detached := false, active := true,
              receiver := Testing)
    case Detaches => client.(phase := Detaching, active := false)
    case Quits => client.(phase := Leaving, active := false)
  }

  /** The client after a command. */
  function Served(s: State, step: Step): Client
    requires step.Ask? && step.c < |s.clients|
  {
    Changed(s.clients[step.c], ChangeBy(s, step)).(replies := s.clients[step.c].replies + AnswerTo(s, step))
  }

  /** How many messages of an inbox have arrived, when the last one may still be on its way. */
  function Arrived(inbox: seq<string>, arrived: bool): nat {
    if arrived || inbox == [] then |inbox| else |inbox| - 1
  }

  function ReceiverNext(s: State, client: Client, ok: bool): Receiver
    requires client.subscription.Some?
  {
    match client.receiver
    case Off => Off
    case Testing => if client.active then Taking else Off
    case Taking =>
      var inbox := Inbox(s, client.subscription.value);
      if Arrived(inbox, ok) == 0 then Testing else Writing(inbox[0])
    case Writing(_) => Testing
  }

  /** The second half of ATTACH and of DETACH. */
  function Answered(s: State, client: Client, arrived: bool): Client {
    if client.phase.Counting? then
      client.(phase := Serving,
              replies := client.replies + if client.subscription.Some? then [OkNumber(Arrived(Inbox(s, client.subscription.value), arrived))] else [])
    else
      client.(phase := Serving, detached := true, subscription := None,
              replies := client.replies + if client.subscription.Some? then [IdRead(s, client.subscription.value)] else [])
  }

  /** `subscription_get_id` through a pointer to subscription `k`. */
  function IdRead(s: State, k: nat): Reply {
    if Disposed(s, k) then OkStale else OkNumber(k + 1)
  }

  function ClientNext(s: State, step: Step, c: nat): Client
    requires Enabled(s, step) && OfClient(step) && step.c == c
  {
    var client := s.clients[c];
    match step
    case Ask(_, _) => Served(s, step)
    case HangUp(_) => client.(phase := Leaving, active := false)
    case Joined(_) =>
      if client.phase.Detaching? then client.(phase := Answering) else client.(phase := Gone, subscription := None)
    case Answer(_, arrived) => Answered(s, client, arrived)
    case Receive(_, ok) => client.(receiver := ReceiverNext(s, client, ok))
  }

  /** How often a subscription stands on the detached list: `network_server_free` disposes of every entry. */
  function Occurrences(entries: seq<Entry<nat>>, k: nat): nat {
    if entries == [] then 0 else (if entries[0].subscription == k then 1 else 0) + Occurrences(entries[1..], k)
  }

  function SubNext(s: State, step: Step, k: nat): Sub
    requires Enabled(s, step) && k < |s.subs|
  {
    var sub := s.subs[k];
    match step
    case Ask(c, _) => if Attaches(s, step) && Attached(s, step) == k then sub.(owner := Held(c)) else sub
    case Joined(c) =>
      if Shelves(s, step) && s.clients[c].subscription.value == k then sub.(owner := Shelved)
      else if Disposes(s, step) && s.clients[c].subscription.value == k then
        sub.(owner := Freed, disposals := sub.disposals + 1, closed := Some(|s.log|))
      else sub
    case Receive(c, ok) =>
      if s.clients[c].subscription != Some(k) then sub
      else if s.clients[c].receiver.Taking? && Arrived(sub.inbox, ok) > 0 then sub.(inbox := sub.inbox[1..])
      else if s.clients[c].receiver.Writing? then sub.(taken := sub.taken + [Taken(s.clients[c].receiver.message, ok)])
      else sub
    case Deliver(task) =>
      if sub.channel == s.pending[task].channel && sub.closed.None? then
        sub.(inbox := sub.inbox + [s.pending[task].content])
      else sub
    case Close =>
      var n := Occurrences(s.detached, k);
      if n > 0 then sub.(owner := Freed, disposals := sub.disposals + n, closed := Some(|s.log|)) else sub
    case _ => sub
  }

  function ClientsNext(s: State, step: Step): seq<Client>
    requires Enabled(s, step)
  {
    if step.Accept? then s.clients + [Newcomer]
    else if !OfClient(step) then s.clients
    else s.clients[step.c := ClientNext(s, step, step.c)]
  }

  function ShelfNext(s: State, step: Step): seq<Entry<nat>> {
    if Attaches(s, step) then Dropped(s.detached, step.request.number)
    else if Shelves(s, step) then
      [Entry(s.clients[step.c].subscription.value + 1, s.clients[step.c].subscription.value)] + s.detached
    else if step.Close? then []
    else s.detached
  }

  function Apply(s: State, step: Step): State
    requires Enabled(s, step)
  {
    var subs := seq(|s.subs|, k requires 0 <= k < |s.subs| => SubNext(s, step, k));
    State(
      s.key,
      ClientsNext(s, step),
      ShelfNext(s, step),
      if Subscribes(s, step) then subs + [Sub(step.request.argument, |s.log|, None, [], [], 0, Held(step.c))] else subs,
      if Publishes(s, step) then s.pending + [Posting(step.request.argument, CString(step.request.content.value))]
      else if step.Deliver? then s.pending[..step.task] + s.pending[step.task + 1..]
      else s.pending,
      if step.Deliver? then s.log + [s.pending[step.task]] else s.log,
      s.down || step.Close?)
  }

  ghost predicate Run(s: State, steps: seq<Step>, s': State)
    decreases |steps|
  {
    if steps == [] then s == s'
    else Enabled(s, steps[0]) && Run(Apply(s, steps[0]), steps[1..], s')
  }

  ghost predicate Reachable(s: State) {
    exists key: Option<string>, steps: seq<Step> :: Run(Init(key), steps, s)
  }

  // ---- The delivery log --------------------------------------------------------------------------

  /** The contents delivered on a channel between two lengths of the log. */
  ghost function Delivered(log: seq<Posting>, channel: string, start: nat, stop: nat): seq<string>
    requires start <= stop <= |log|
    decreases stop
  {
    if start == stop then []
    else Delivered(log, channel, start, stop - 1) + if log[stop - 1].channel == channel then [log[stop - 1].content] else []
  }

  lemma {:induction false} DeliveredPrefix(log: seq<Posting>, more: seq<Posting>, channel: string, start: nat, stop: nat)
    requires start <= stop <= |log|
    ensures Delivered(log + more, channel, start, stop) == Delivered(log, channel, start, stop)
    decreases stop
  {
    if start < stop {
      DeliveredPrefix(log, more, channel, start, stop - 1);
    }
  }
}
