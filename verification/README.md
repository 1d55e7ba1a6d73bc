# miez: a verified model

miez is a publish/subscribe broker in C, built on its own thread pool, hash table, linked list and
queue, with a small network server on top. This project models those layers in Dafny and proves what
each promises the next one, for every input, every interleaving and every run.

`dafny verify dfyconfig.toml` checks everything.

## How it is organised

| files | what they model |
|---|---|
| `Prelude` | optional values, `void*`, mutexes, bytes, finite sums |
| `LinkedList`, `Queue` | the sentinel list with live iterators and the queue over it, on the heap |
| `TableSpec`, `HashTable`, `TableSteps` | the table as a stack of values per key; its calls on an array of buckets; its calls interleaved between threads |
| `StringHash` | the djb2 loop |
| `ThreadPool`, `ThreadPoolSafety`, `ThreadPoolTheorems`, `ThreadPoolRest`, `ThreadPoolWait` | the pool as a step system, its invariant, its guarantees, how it comes to rest, and what becomes of a `wait` after shutdown |
| `Broker`, `BrokerSteps`, `BrokerStructure`, `BrokerLists`, `BrokerOrder`, `BrokerIds`, `BrokerReceive`, `BrokerSerial`, `BrokerTheorems` | the delivery protocol as a step system, what one step does, five layers of invariant, the guarantees |
| `AtomicBroker`, `BrokerRefinement` | the broker as its callers may see it, with no threads in it, and the proof that the threads implement it |
| `Channel` | the two walks over a channel's subscribers as loops |
| `LockOrder` | the mutex operations of every call, and deadlock freedom |
| `DetachedList`, `Session`, `SessionInvariant`, `SessionTheorems` | the server's detached list on the heap; clients, receivers and commands as a step system; its invariant; who owns a subscription and what becomes of its messages |
| `SessionWindows`, `SessionRuns`, `SessionAuth`, `SessionRefinement` | what DETACH and ATTACH answer, two runs in which it is not what one expects, what a client can do before it authenticates, and the proof that the sessions run on the atomic broker |
| `Utf8`, `Frame` | which bytes decode; the `MSG` frame, its buffer, and the subscriber's reader |

The step systems (pool, broker, shared table, sessions) have one program counter per thread, and
`Run(s, steps, s')` is any sequence of enabled steps. In the pool, the broker and the table a step is one
mutex or condition-variable operation, one atomic access, one call on a synchronised queue, or one move
of a list walk; condition waits may wake up for no reason. In the sessions a step is a stretch of a
command handler that touches shared state once: most commands are one step, DETACH three, ATTACH two,
an exit two, and each turn of a receiver up to three. Fields described as history (logs, `taken`,
`place`, `frees`, `owner`) record what happened and never decide what happens next.

Five results show where the code does not do what one might expect, each with the exact condition:

* `wait` can return while a task submitted before it has not started, because a worker dequeues before
  it counts itself. `WaitCanReturnEarly` is such a run; `WaitFinalTest` says exactly when it happens;
  `WaitReturns` bounds it, and covers the variant that claims and counts in one step, which has no gap.
* `wait` never returns once `shutdown` has left a task in the queue. `WaitCanHang` is such a run;
  `StrandedExactly` gives the condition, a submitter that passed its test of `_off` before the shutdown
  included; every other `wait` takes at most four more steps and returns (`SafeWaitBound`,
  `SafeWaitReturns`).
* DETACH puts the subscription on the list before it reads its id. `DetachCanReadFreed` is a run in which
  another client attaches it and leaves in between, so that the id is read from a freed subscription;
  `DetachAnswersId` says that this is exactly when it happens.
* ATTACH starts its receiver before it reads the pending count. `AttachCanAnswerZero` is a run that
  answers 0 with a message pending; `AttachAnswersCount` gives the number in general, and when it is the
  backlog.
* A frame is read back as sent exactly when it is UTF-8 and its channel name has no space and no newline
  (`RoundTripExactly`); the first message that is not UTF-8 ends the subscriber's loop
  (`StreamExactly`). Names that arrive over the network have neither space nor newline, but they and
  their contents may be any other bytes.

Assumptions, stated once:

* Allocation, mutex and condition-variable initialisation and thread creation succeed.
* Key comparison is an equivalence that the hash respects.
* In the broker model each subscription has one consumer, and no receive on a handle overlaps its own
  unsubscribe. For the server this is not assumed but proved (`OneReceiver`, `DisposedQuietly`).
* Nothing uses an object concurrently with its `free`; the broker is torn down when no call is in
  progress. `network_server_free` does not wait for the client threads; its callers must, and the model
  closes the server when every client has gone.
* Steps are sequentially consistent, the plain `_active` fields included. Message and subscription ids
  do not wrap around.

Where the repository's README and its code disagree, the model follows the code: PUBLISH answers `OK`
and not `OK <msg_id> <subscribers>` (README.md:105, src/network_server.c:384), and a server without an
API key still demands an AUTH command before any other (src/network_server.c:398-403, 460-463).

## Model

| member | source | states |
|---|---|---|
| `BrokerTheorems.HistoryIsLogSegment` | src/message_broker.c:575-619 | In every reachable state the messages a subscriber took, then its inbox, are a contiguous segment of its channel's delivery log from where it joined; while active, the whole rest of the log but the message of a walk still on its way to it |
| `BrokerTheorems.SubscribersAgree` | src/message_broker.c:588-613 | Two subscribers of one channel that share a message agree on everything around it: same order, no gap, no repeat |
| `BrokerTheorems.ExactlyOnce` | src/message_broker.c:747-772 | A publish begun after a subscribe returned, whose task completes before that subscription is given up, puts exactly one copy of exactly that message into its history |
| `BrokerTheorems.DeliveredOnce` | src/message_broker.c:588-619 | A completed task whose id is not older than the subscription has left one copy, and only one, with every active subscriber of its channel |
| `BrokerTheorems.MessageInOnePlace` | src/message_broker.c:747-772 | Every id drawn so far is at one publishing thread or worker, or queued, or at one place of one channel's log |
| `BrokerTheorems.OneChannelPerName` | src/message_broker.c:530-573 | The broker never holds two channels of one name, although the table would take duplicates |
| `BrokerTheorems.InboxesCarryTheirChannel` | src/message_broker.c:598-604 | Every message in an inbox was published, unchanged, on the channel of that subscription |
| `BrokerTheorems.WalkTouchesLinked` | src/message_broker.c:588-612 | A delivery walk only touches proxies that are linked and have not been freed |
| `BrokerTheorems.CallTouchesLinked` | src/message_broker.c:905-948 | A receive, or an unsubscribe before it frees, only touches a proxy that is still linked |
| `BrokerTheorems.UnsubscribeFinds` | src/message_broker.c:1029-1067 | The search of unsubscribe always finds its channel and never runs off the list before its proxy |
| `BrokerTheorems.UnsubscribeRemovesItsOwn` | src/message_broker.c:1055-1061 | Unsubscribe unlinks exactly its own proxy; the others keep their order, inboxes and histories |
| `BrokerTheorems.FreedOnce` | src/message_broker.c:1013-1097 | Over unsubscribe, repeated unsubscribe, `subscription_free` and teardown a proxy is freed at most once, and exactly once when its handle is given up or the broker is gone |
| `BrokerTheorems.NeverOutOfRange` | src/message_broker.c:519-631 | A thread that cannot step is waiting for a mutex, a message or a task: no step ever looks up a channel, proxy or list position that does not exist |
| `BrokerTheorems.SomeoneGoes` | src/message_broker.c:519-1077 | The protocol itself never gets stuck: unless every thread is outside a call, asleep, or a worker without a task, some thread can take its next step |
| `BrokerTheorems.ReceiveReturnsOldest` | src/message_broker.c:922-950 | A receive that returns 0 carries a message, the oldest in the inbox and the next one of the channel log, although the inbox mutex is released before the dequeue |
| `BrokerTheorems.NoMissedWakeup` | src/message_broker.c:315-323 | A consumer asleep over a non-empty inbox has a worker about to signal it |
| `BrokerTheorems.SerialIdsIncrease` | src/message_broker.c:747-772 | With one worker and publish calls that do not overlap, ids increase strictly in every subscriber's history |
| `BrokerRefinement.Refines` | src/message_broker.c:519-1077 | Every run of the threads, step for step, is a run of the atomic broker: taking the channel mutex appends to one log, linking a proxy joins it, a dequeue takes the next message, deactivating closes, and no other step can be seen |
| `BrokerRefinement.ReturnsWhatItTakes` | src/message_broker.c:922-948 | What a receive returns with code 0 is what its atomic step takes |
| `Channel.Channel.Join` | src/message_broker.c:844-846 | A new proxy goes last and starts with an empty history |
| `Channel.Channel.Deliver` | src/message_broker.c:588-613 | The walk appends one copy to every active inbox and nothing to the others; every active proxy stays up to date with the log |
| `Channel.Channel.TryReceive` | src/message_broker.c:968-1001 | The oldest message or code 1; what was taken, then the inbox, is unchanged |
| `Channel.Channel.Remove` | src/message_broker.c:1047-1067 | The proxy with the id leaves the list, the rest keep their order, and no id is left over |
| `StringHash.StringHash` | src/message_broker.c:439-451 | The loop, wrapping at every step, computes the polynomial 5381 * 33^n + sum of s[i] * 33^(n-1-i) modulo 2^64 of the bytes before the terminator |
| `StringHash.HashAppend` | src/message_broker.c:443-448 | One turn of the loop extends the polynomial by one byte, early reduction included |
| `ThreadPoolTheorems.NoLostWakeup` | src/thread_pool.c:67-73 | A queued task with all workers asleep has a submitter about to signal; a sleeping `wait` has a task queued, held, running, or a broadcast owed |
| `ThreadPoolTheorems.QueuedTaskNeverStuck` | src/thread_pool.c:364-373 | While the pool is on and a task is queued, some thread can move without a spurious wake-up |
| `ThreadPoolRest.RunsAreFinite` | src/thread_pool.c:65-107 | Without new calls, shutdown and spurious wake-ups every run is finite: each step of a worker or a call lowers a measure over the queue, the workers and the callers |
| `ThreadPoolRest.RestIsDone` | src/thread_pool.c:65-107 | When nobody can step any more, every accepted task has been executed exactly once, every worker sleeps and every submit and `wait` has returned |
| `ThreadPoolRest.ComesToRest` | src/thread_pool.c:65-107 | From every reachable state of a pool in service there is such a run to such an end |
| `ThreadPoolTheorems.InFlightExact` | src/thread_pool.c:97-102 | `_in_flight` is the number of workers inside the counted region; it never underflows |
| `ThreadPoolTheorems.WaitReturns` | src/thread_pool.c:325-331 | When `wait` returns, every task enqueued before its last emptiness test is finished but those held uncounted, at most one per worker; none when claiming and counting are one step |
| `ThreadPoolTheorems.WaitFinalTest` | src/thread_pool.c:326-330 | At that test a task is unfinished if and only if a worker holds it uncounted, so `wait` keeps its word exactly when no worker is between dequeue and increment |
| `ThreadPoolTheorems.WaitCanReturnEarly` | src/thread_pool.c:91-97 | A reachable state in which `wait` has returned and the one task submitted before it has not started |
| `ThreadPoolTheorems.TaskConservation` | src/thread_pool.c:75-102 | Every accepted task is exactly once queued, held or running, executed, or discarded, and no other task is anywhere |
| `ThreadPoolTheorems.FreeSettlesEveryTask` | src/thread_pool.c:266-277 | After `free` every accepted task has run once or been discarded once |
| `ThreadPoolTheorems.JoinedMeansExited` | src/thread_pool.c:306-311 | A shutdown that has joined its last thread leaves every worker exited |
| `ThreadPoolTheorems.NothingRunsAfterJoin` | src/thread_pool.c:300-312 | Once the workers have exited no task runs again, whatever is called afterwards |
| `ThreadPoolWait.WaitHangsAfterShutdown` | src/thread_pool.c:325-331 | With the workers gone and a task left in the queue, a `wait` that has not passed its emptiness test never returns, whatever is called |
| `ThreadPoolWait.WaitCanHang` | src/thread_pool.c:75-88 | Such a state is reachable: submit, a shutdown that returns, then `wait` |
| `ThreadPoolWait.StrandedExactly` | src/thread_pool.c:350-364 | After shutdown a `wait` can come to hang if and only if it has not passed its emptiness test and a task is queued or a submitter has passed its test of `_off` and not enqueued yet |
| `ThreadPoolWait.SafeWaitBound` | src/thread_pool.c:325-331 | Every other `wait` never sleeps again and takes at most four more steps of its own, whatever else runs, before it has returned |
| `ThreadPoolWait.SafeWaitReturns` | src/thread_pool.c:325-333 | And there is a run in which it returns: the holder of the mutex lets go, then it runs through |
| `ThreadPoolTheorems.ShutdownBoundsWork` | src/thread_pool.c:300-312 | After shutdown's broadcast no worker sleeps and the workers together take at most 15 steps each, by a measure that ends at all exited |
| `ThreadPoolTheorems.ShutdownProgress` | src/thread_pool.c:65-107 | Until all have exited, a worker, or the caller that holds the mutex, can step |
| `ThreadPoolTheorems.AtMostOneMoreTask` | src/thread_pool.c:75-91 | After the broadcast each worker takes at most one more task, and only if it had already passed the test of `_off` |
| `LockOrder.CallsDisciplined` | src/message_broker.c:530-575 | Every call, turn of a worker and teardown acquires mutexes in strictly rising rank (pool, its queue, channels, bucket, channel, inbox, inbox queue, detached list), releases the innermost first and ends holding none |
| `LockOrder.NoWaitCycle` | src/message_broker.c:1029-1072 | No reachable state has a cycle of waiting threads, of any length |
| `LockOrder.SomeoneCanStep` | src/generic_hash_table.c:506-525 | While some call is unfinished, some thread can take its next mutex step |
| `HashTable.Table.Insert` | src/generic_hash_table.c:455-528 | Pushes the value on the stack of its key (and of equal keys); every other stack is unchanged, in the same bucket too; the size grows by one |
| `HashTable.Table.Get` | src/generic_hash_table.c:533-608 | Returns the newest value of the key, or code 1 and NULL when there is none |
| `HashTable.Table.Delete` | src/generic_hash_table.c:611-693 | Pops the newest value and re-exposes the one before, or answers 1; every other stack is unchanged; the size follows |
| `HashTable.Table.Contains` | src/generic_hash_table.c:696-761 | 0 exactly when the key has a value |
| `HashTable.Table.IsEmpty` | src/generic_hash_table.c:442-452 | 1 exactly when no key has a value |
| `HashTable.Table.Find` | src/generic_hash_table.c:554-607 | The search loop stops at the first pair of the bucket that matches |
| `TableSpec.FirstMatch` | src/generic_hash_table.c:626-692 | The first match is the top of the key's stack, and unlinking it pops that key and no other |
| `TableSteps.SizeAccounting` | src/generic_hash_table.c:506-525 | Under any interleaving the bucket lengths add up to the atomic size, plus inserters that have linked and not counted, minus deleters that have unlinked and not discounted; the size is never negative |
| `TableSteps.NeverUnderflows` | src/generic_hash_table.c:662-683 | A deleter about to decrement finds the size positive |
| `TableSteps.SizeExactWhenSettled` | src/generic_hash_table.c:519-525 | With nobody between a link and its count, the size is the number of pairs |
| `TableSteps.Linearizable` | src/generic_hash_table.c:554-607 | Interleaved calls behave as if run one at a time in the order they take effect, each between its begin and its return: every answer is the one the key's stack demands at that point |
| `LinkedList.List.InsertFirst` | src/generic_linked_list.c:331-335 | The contents grow at the front; links stay mutual inverses between the guards and the size is the length |
| `LinkedList.List.InsertLast` | src/generic_linked_list.c:391-395 | The same at the back |
| `LinkedList.List.RemoveFirst` | src/generic_linked_list.c:401-459 | The first element leaves, to the caller or else to the free function; an empty list answers 0 and NULL; with nowhere to put the datum, code 1 and no change |
| `LinkedList.List.RemoveLast` | src/generic_linked_list.c:462-520 | The same for the last element |
| `LinkedList.List.Free` | src/generic_linked_list.c:195-232 | Every remaining non-NULL datum is released once, in order, if a free function is set |
| `LinkedList.Iterator.Begin` | src/generic_linked_list.c:523-567 | Stands on the first element, or on the tail guard of an empty list |
| `LinkedList.Iterator.AtEnd` | src/generic_linked_list.c:570-614 | Stands on the tail guard |
| `LinkedList.Iterator.ReverseBegin` | src/generic_linked_list.c:617-660 | Stands on the last element, or on the head guard of an empty list |
| `LinkedList.Iterator.ReverseEnd` | src/generic_linked_list.c:663-706 | Stands on the head guard |
| `LinkedList.Iterator.IsValid` | src/generic_linked_list.c:852-867 | 0 exactly on an element |
| `LinkedList.Iterator.Get` | src/generic_linked_list.c:728-767 | The element at the position; at a guard code 1 and NULL |
| `LinkedList.Iterator.Next` | src/generic_linked_list.c:770-796 | One position forward, code 1 at the tail guard |
| `LinkedList.Iterator.Prev` | src/generic_linked_list.c:799-825 | One position back, code 1 at the head guard |
| `LinkedList.Iterator.Advance` | src/generic_linked_list.c:884-892 | `n` positions forward, clamped at the tail guard |
| `LinkedList.Iterator.ReverseAdvance` | src/generic_linked_list.c:909-914 | `n` positions back, clamped at the head guard |
| `LinkedList.Iterator.Remove` | src/generic_linked_list.c:956-979 | Exactly the current node leaves, the iterator stands on its successor, all other nodes keep their order; at a guard nothing happens |
| `LinkedList.Iterator.Distance` | src/generic_linked_list.c:1032-1058 | The number of elements between two iterators, the head guard not counted; code 1 exactly when the end lies before or the lists differ |
| `LinkedList.Iterator.Find` | src/generic_linked_list.c:1119-1177 | The first match before the end, or before the list's own end when the end lies before the begin; without one, the position of the end |
| `LinkedList.Iterator.ForEach` | src/generic_linked_list.c:1227-1235 | The calls received, in order: from the begin up to the end or the tail guard, the head guard's NULL included |
| `LinkedList.Sweep` | tests/generic_linked_list_test.c:1126-1175 | Removing matches and stepping otherwise leaves exactly the non-matches, and takes out exactly the matches, both in order |
| `Queue.Queue.Enqueue` | src/generic_queue.c:235-249 | The datum goes last |
| `Queue.Queue.Dequeue` | src/generic_queue.c:252-267 | The oldest datum comes out; an empty queue answers 0 and NULL |
| `Queue.Queue.Peek` | src/generic_queue.c:270-325 | The oldest datum, or NULL, and no change |
| `Queue.Queue.PeekRear` | src/generic_queue.c:328-384 | The newest datum, or NULL, and no change |
| `Queue.Queue.Clear` | src/generic_queue.c:387-421 | Every datum is released, oldest first; without a free function a non-empty queue answers 1 and keeps everything |
| `Queue.Queue.Contains` | src/generic_queue.c:424-507 | 1 exactly when some queued datum matches |
| `Queue.Queue.ForEach` | src/generic_queue.c:510-573 | Every datum once, oldest first |
| `DetachedList.Detached.Add` | src/network_server.c:84-106 | The new entry goes first, the rest keep their order |
| `DetachedList.Detached.FindAndRemove` | src/network_server.c:60-82 | The first entry with the id leaves and hands over its subscription, the rest keep their order; without one nothing changes |
| `SessionTheorems.OwnedOnce` | src/network_server.c:240-338 | Every subscription is held by one client, or stands once on the detached list, or has been disposed of once: exactly one of the three; another client may point at it only from inside a DETACH that has listed it, without a receiver |
| `SessionTheorems.NothingLeaks` | src/network_server.c:774-797 | Once the server is closed, every subscription ever made has been disposed of exactly once, if it was closed after the last client had gone (which `network_server_free` does not wait for) |
| `SessionTheorems.OneReceiver` | src/network_server.c:184-237 | A subscription never has two receiver threads, a session in service has one, and none outlives its subscription |
| `SessionTheorems.DisposedQuietly` | src/network_server.c:509-516 | When a client's exit unsubscribes and frees, its receiver has ended, nobody else holds the subscription or runs a receiver on it, and whoever still points at it is in a DETACH about to read its id |
| `SessionTheorems.HistorySpansSessions` | src/network_server.c:184-237 | Over any number of DETACH and ATTACH, what the receivers took, the message in hand, then the inbox are everything delivered on the channel since SUBSCRIBE, up to now or its disposal |
| `SessionTheorems.WrittenExactly` | src/network_server.c:216-228 | The sockets carried everything that was taken if and only if no write failed |
| `SessionTheorems.ContentsAreStrings` | src/message_broker.c:758-765 | No message on its way to a subscriber holds a NUL: its content was cut at the first one |
| `SessionWindows.DetachLists` | src/network_server.c:314-324 | DETACH joins its receiver and puts the subscription on the list under its id, messages untouched, and still points at it |
| `SessionWindows.DetachAnswersId` | src/network_server.c:326-335 | DETACH answers the id if and only if no client has meanwhile attached the subscription and left with it; otherwise it reads a freed subscription |
| `SessionRuns.DetachCanReadFreed` | src/network_server.c:320-331 | A reachable state in which a DETACH is about to read the id of a freed subscription |
| `SessionTheorems.IdFindsItsSubscription` | src/network_server.c:275-304 | The id of a detached subscription names it to whoever sends ATTACH with it, after any steps but a close or an earlier ATTACH that found it; meanwhile nothing is taken from it and its inbox only grows |
| `SessionWindows.AttachOpens` | src/network_server.c:284-295 | ATTACH takes the subscription off the list as it is, inbox included, and starts a receiver that has taken nothing |
| `SessionWindows.AttachAnswersCount` | src/network_server.c:294-301 | ATTACH answers the backlog it found, plus what was delivered and minus what its receiver took before the count was read, minus a last message still on its way; the backlog if and only if those cancel out |
| `SessionRuns.AttachCanAnswerZero` | src/network_server.c:294-301 | A reachable run in which an ATTACH that finds one pending message answers 0 |
| `SessionTheorems.AttachFinds` | src/network_server.c:284-290 | ATTACH succeeds exactly when the number names a detached subscription |
| `SessionAuth.NoTraceBeforeAuth` | src/network_server.c:453-506 | Take every command of a client that has not authenticated out of a run, letting it hang up where it quit: what is left is a run, and it ends in the same state but for the replies to that client |
| `SessionAuth.AuthenticatedExactly` | src/network_server.c:390-414 | A client is authenticated if and only if it has sent AUTH with the right key, or with any when the server has none |
| `SessionAuth.HoldersAuthenticated` | src/network_server.c:460-478 | Only authenticated clients ever hold a subscription |
| `SessionRefinement.Refines` | src/network_server.c:184-338 | Every run of the sessions, step for step, is a run of the atomic broker that the broker's threads implement |
| `SessionRefinement.TakesWhatIsAllowed` | src/network_server.c:192-193 | And forbids nothing it allows: what a receiver may take there, it takes here, or just misses while it is on its way |
| `Frame.WriteFrame` | src/network_server.c:205-217 | The bytes sent are the frame, written inside the 512 + content + 1 bytes allocated |
| `Frame.HeaderBound` | src/network_server.c:205-213 | A channel name of at most 255 bytes makes a header of at most 302 bytes, so every such frame fits the 512 + content + 1 bytes |
| `Frame.StreamExactly` | tests/python_subscriber.py:46-95 | From any mix of frames and reply lines the subscriber sees exactly the messages before the first one that is not UTF-8, in order; contents may hold newlines and whole frames (of that one, if only its content does not decode, the id and channel have been printed) |
| `Frame.StreamRoundTrip` | tests/python_subscriber.py:46-82 | If all are UTF-8, it sees all of them |
| `Frame.RoundTripExactly` | tests/python_subscriber.py:46-95 | A frame is read back as sent if and only if channel and content are UTF-8 and the channel has no space and no newline |
| `Utf8.ValidSplit` | tests/python_subscriber.py:53-86 | A decodable byte string may be cut before any byte that begins a character, and both parts decode |
| `Frame.SeenDetermines` | tests/python_subscriber.py:68-82 | What the subscriber sees of a message determines its id, channel and content |
| `Frame.DecimalRoundTrip` | src/network_server.c:211-213 | A printed number is digits only and reads back as itself |

## Left out

- TLS, sockets, `accept` and the reading of command lines: the server sees scanned fields (`sscanf`, `strtoull` and `strcmp` are library calls), a content of the announced length or its absence (one `SSL_read` returns at most one TLS record, so a long content can be refused too), and a connection that may end at any time.
- `src/main.c`, `src/network_server_main.c`, printing, signals and option parsing: demo drivers.
- `src/generic_queue_syn.c`: a lock around the queue; each of its calls is one step, and its mutex appears in the lock order.
- NULL-argument checks, getters and setters, and every path for failed allocation or initialisation: they would only add one-branch facts.
- Copy functions of the list, the queue and the table: a stored datum is the datum given.
- `generic_hash_table_clear` and `generic_hash_table_for_each`: declared, not implemented.
- Weak memory, wrap-around of 64-bit ids, and `free` of memory beyond the status of nodes, proxies and subscriptions.
- The bucket lists of the table are sequences, not `List` objects: the in-place linking is proved in `LinkedList`, and aliasing between buckets is not modelled.
- The table inside the broker's step system is its specification, one atomic call on stacks per key; its own interleavings are in `TableSteps`.
- The pool inside the broker's step system is its queue and its workers; its sleeping, waiting and shutdown are in `ThreadPool`.
- SUBSCRIBE in the session model is one step: the broker's subscribe, the start of the receiver and the reading of the id, which nobody else can free by then. So are the `unsubscribe` and the `free` of an exit.
- The sessions run on the atomic broker, not on the broker's threads: each is proved to be a run of it (`SessionRefinement`, `BrokerRefinement`), with whatever a session may see of a delivery under way; the two step systems are not joined into one.
- Responses and frames share one socket; the model records each reply and each write attempt, not how their bytes interleave. A write either succeeds or fails as a whole.
- `int()` of the subscriber also accepts signs, underscores, surrounding white space and digits of other scripts in a length; the reader of `Frame` ends the loop on anything but ASCII digits, which is all the server sends.
- The subscriber's one-second timeout, which drops a line that arrives in two parts further apart than that: the reader of `Frame` has the whole stream.
- ThreadPoolTheorems.ShutdownProgress: proves that a step is always possible and that worker steps are bounded; that the scheduler eventually takes them, and that tasks return, is assumed.
- Frame.WriteFrame: asks for a header of at most 512 bytes, which `HeaderBound` gives for every channel name the server accepts (255 bytes); a caller of the broker library that publishes on a name longer than that is not covered.
