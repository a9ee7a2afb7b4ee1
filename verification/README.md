# Edriel: the reliable delivery protocol and the receive pipeline

Edriel is a peer-to-peer publish/subscribe node. This project models two of its parts and
proves what they promise.

**Reliable delivery.** A publisher stamps each frame of a topic with a tentative sequence
number (tid), offers it to the outbox of every subscriber stream and commits the tid only
if some subscriber accepted. Each stream is a bounded FIFO outbox with a high/low-water
latch, one write in flight and a one-shot finish. The subscriber node reorders and
de-duplicates what it reads in one window per (publisher, topic), and resets the windows of
the uid it dialed on every re-dial: the publisher's own for one found in the registry, one
made up from the endpoint for a static seed.

**Receive pipeline.** One receiver thread walks just enough of a multicast frame to find its
topic, puts the raw frame on the ring of the worker that owns the topic, and the workers
decode and dispatch. The participant and topic registry is cut into the same shards.

## Layout

| file | part |
|---|---|
| `Numbers.dfy`, `Keys.dfy` | arithmetic; identities, composite keys, window keys |
| `Window.dfy`, `Receiver.dfy` | one reorder/dedup window; the node's receive state (class `ReliableReceiver`) |
| `Reactor.dfy` | one subscriber stream: its mutex sections as functions, its callbacks as class `SubscriberReactor` |
| `ReactorProtocol.dfy` | every interleaving of the threads that touch one stream |
| `StreamPromises.dfy` | what one stream promises, field by field: marks, latch, cancel, half-close, Finish |
| `Pacing.dfy`, `Publisher.dfy` | the token bucket; the subscriber table and one send, in place |
| `World.dfy` | publisher, streams, table and one subscriber node as a single state machine |
| `SendRefinement.dfy` | the send method against that machine |
| `Ordering.dfy`, `EndToEnd.dfy`, `Lossless.dfy` | invariants over every run, and the end-to-end theorems |
| `Disciplines.dfy`, `Witnesses.dfy` | ways to publish and to stay connected that lose nothing; runs that do lose |
| `Overlap.dfy`, `HandOver.dfy` | several readers at once: what the lock releases, and what the application then sees |
| `Succession.dfy` | the streams of one subscriber take a topic's frames one after another |
| `Ring.dfy`, `Config.dfy` | the ring over an array with 64-bit counters; the settings ring and outbox need |
| `Wire.dfy`, `Pipeline.dfy` | the fast router; routing, rings and workers |
| `Registry.dfy`, `Reconcile.dfy` | the sharded registry and its cleanup; which publishers are dialed |
| `RegistryPromises.dfy`, `Ownership.dfy` | each operation's effect on the merged registry, over any run; a frame's worker owns its shard |

Code that works in place is a class or a method with loops, proved equal to a function of
the old state; the theorems are about those functions. Concurrent code is a state machine
whose steps are the sections run under a mutex: `ReactorProtocol` has a counter for the
threads between a push and its `startWrite_`, sets for the write completions between
`OnWriteDone`'s sections, and a multiset of the threads on their way to `finish_`.

## What holds, and what does not

Where the code does less than its documentation says, or less than a reader might expect, the
code is what is modelled; a lemma gives an input that shows it or the exact condition under
which it does not happen, mostly both:

- `Lossless.LosslessIff`: over any run a subscriber gets exactly the Sent frames of a topic if
  and only if no step loses one, and these steps are: a commit that somebody else accepted
  alone, a push taken by a stream it has dialed away from, a re-dial that leaves accepted
  frames unread, and a read that finds neither window nor marker and is 1 to 255 past tid 1.
  - `Witnesses.PresenceDefeatsProbe`: a subscriber was sendable when the call began, a presence
    frame took its room, and the frame was Sent past it. `Disciplines.PushTakenIffSendable`:
    the probe is exact at the moment of the push.
  - `Witnesses.CleanupDefeatsAcceptance`: connected throughout, both frames accepted, written
    and read; but the node timed the publisher out in between, which forgets its windows,
    and the second is held back. `Receiver.PrunedTopicResumes` is the exact effect.
  - `Witnesses.LateJoinerStalls`: with neither a loss nor a cleanup before, a second topic that
    is past tid 1 when the subscriber joins delivers nothing, as the first topic spends the
    marker. `Disciplines.StallNeedsCleanup`: a topic that has a window, or no commit yet, or
    is sure to spend the marker itself stalls only after a cleanup or a loss.
- `Disciplines.RedialCatchesUp`, `Receiver.RedialResumes`: a re-dial lets the topics of a
  publisher start over only under the publisher's own uid. A static seed is dialed under a
  made-up one: nothing is reset, and a gap of 1 to 255 stalls the topic.
- `HandOver.ApplicationOrderIff`: a replaced connection is joined only after its replacement
  has started, and a reader runs the callbacks after it has left the lock. So two things
  decide what the application sees. The lock releases a topic in order if and only if no
  frame of an older stream opens a window after one of a newer stream was released
  (`Overlap.OverlapByStream`; `Overlap.StaleReaderOpens` and `StaleReaderAfterCleanup` are
  runs, with one more dial or with a cleanup). And then the application sees that order if
  and only if each frame is handed over when no older one of its topic is in another
  reader's hands (`HandOver.HandsSwap` is a run). With one reader that finishes before the
  next one takes, it does (`HandOver.OneReaderSeenInOrder`). Nothing is handed over twice
  in any case (`Overlap.OnceInAnyOrder`, `HandOver.HandsAccount`).
- `Window.AnyReorderLosslessIff`: one delivery flushes the whole buffer, holes included, so a
  reorder inside the window loses something exactly when some a < t < b arrive as b, a, t
  with everything below a ahead of a. `Window.GapAbsorption` is the smallest loss: 3, 1, 2.
- `Receiver.FreshMarkerSecondTopic`: the first frame of any topic spends the re-dial
  marker; a second topic's new window starts at 1 and may stall.
- `ReactorProtocol.WakeupLostIff`: the one step that leaves a queued frame of a live stream
  without a writer is the completion of a failed write (its Finish is still to come).
- `ReactorProtocol.OkFinish`: a drained finish that takes effect with status OK hides a failed
  write if and only if that write's own finisher is still pending
  (`DrainedFinishMayHideLoss` is a run), and leaves unwritten exactly what is then
  queued, all of it accepted after the decision (`LateFrameStranded` is a run).
- `Reactor.LimitsCoherent`, `Reactor.FreshReactorAccepts`: the configuration accepts an
  outbox bound of 1, with which the high-water mark is 0 and every frame is refused.
- `Ring.OverflowBreaksOrderIff`, `Ring.SecondOverflowEvictsNewest`: on overflow the new frame
  takes the oldest slot and is popped first. Edriel/EdrielRing.hpp:12-17 says that retained
  frames stay in order; `Ring.PoppedInOrderIff` says when the consumer sees them so.
- `Keys.CompositeKeyCollidesIff`: a (topic, type) pair shares its key with another one exactly
  when it holds the separator. Edriel/Edriel.hpp:41-45 takes separator-free topics for
  granted; what in fact keeps keys apart is that types, the full names of message
  descriptors, hold none (`CompositeKeyInjective`, `CollisionNeedsBoth`).
- `Wire.RouterAgreesIff`: the router stops at the first pair of names, a full decode takes the
  last ones of the content set last. `Wire.RouterAgreesUnlessRepeated`: on any well-formed
  bytes they differ only if a name or a content is repeated; `Wire.SecondContentDisagrees` is
  a data message that turns into a heartbeat. Edriel/Edriel.cpp:99-101 calls the shortcut
  "never a correctness risk".
- `Registry.RunningCleanupAgreesIff`: the cleanup locks shard by shard and phase by phase. It
  lists the peers an atomic cleanup would if and only if no evicted peer announces
  anything between eviction and purge; `RunningCleanupIff` adds what may still arrive
  after the purge, `PurgeCommutesIff` compares whole entries.
- `Reconcile.AlwaysIdleIff`: a second pass is idle whatever the connections if and only if
  each seed whose made-up key is also another target's is on that target's list.
  `Reconcile.ClashKeepsDialing`: a seed whose made-up key clashes with another target is
  dialed again on every pass that finds it up on an endpoint not on both lists, so with
  disjoint lists for ever.
- Edriel/EdrielConfig.cpp:106-122 announces a ceiling for the outbox bound and no scientific
  notation for water marks; the code has neither restriction.

## Model

| member | source | states |
|---|---|---|
| EndToEnd.OrderedExactlyOnce | Edriel/Edriel.cpp:1577-1799 | in every run (publishes, refusals, drains, failures, cancels, re-dials, resets, cleanups interleaved) the tids delivered per topic strictly ascend over the whole run, and each delivered frame is that of the one call that had its tid accepted |
| EndToEnd.CommitDiscipline | Edriel/Edriel.cpp:1577-1656 | over every run the committed sequence of a topic is its number of Sent calls, these carry 1, 2, 3, ..., each stream's accepted tids ascend, and every accepted frame is an accepted call's |
| EndToEnd.OneCallPerTid | Edriel/Edriel.cpp:1577-1649 | at any two moments of a run at which a call on a topic is in progress, the first already accepted, the tids are equal if and only if it is the same call, and a later call's tid is greater |
| EndToEnd.SameTidSameFrame | Edriel/Edriel.cpp:1577-1649 | two frames accepted anywhere under the same topic and tid are the same frame |
| EndToEnd.GenerationSafety | Edriel/EdrielGrpcService.cpp:332-353 | over every run a registered live stream is its key's table entry (so there is at most one), and the table never names a stream whose OnDone returned |
| EndToEnd.DeadNeverAccepts | Edriel/EdrielGrpcService.cpp:212-228 | a cancelled, superseded or finished stream never accepts another frame in any continuation |
| EndToEnd.ReadSettles | Edriel/Edriel.cpp:1659-1779 | reading a newer frame delivers it alone or nothing, and keeps every topic's deliveries ascending and no newer than the reads |
| EndToEnd.InvRun | Edriel/Edriel.cpp:1516-1799 | the system invariant holds after every run |
| Lossless.LosslessIff | Edriel/Edriel.cpp:1613-1799 | over any run from a state in which the subscriber is caught up on the topic (re-dials, cleanups, failures, other subscribers and topics included), once drained, it has delivered exactly the Sent frames, in order, if and only if no step lost one: a commit without its acceptance, a push taken by a stream it no longer reads, a re-dial with accepted frames unread, a read that finds neither window nor marker at a tid of 2 to 256 |
| Lossless.LosslessFromStart | Edriel/Edriel.cpp:1516-1799 | the same over every run from the start: all Sent frames of a topic are delivered if and only if no step lost one |
| Disciplines.LosslessStretch | Edriel/Edriel.cpp:1613-1773 | while one stream serves it, with one live subscriber, with calls probed at their start and kept clear of presence, or with the stream sendable at each push, the subscriber gets every Sent frame if and only if no read at a tid of 2 to 256 finds neither window nor marker |
| Disciplines.StallNeedsCleanup | Edriel/Edriel.cpp:1090-1104 | without a cleanup of the publisher, or a loss of another kind, nothing is lost on a topic that has a window, or no commit yet, or is published on alone while the marker is pending |
| Disciplines.PushTakenIffSendable | Edriel/EdrielGrpcService.cpp:222-250 | a push to the observed subscriber is accepted if and only if its stream is sendable at that moment |
| Witnesses.PresenceDefeatsProbe | Edriel/EdrielGrpcService.cpp:307-330 | a run from the start in which a presence frame takes the probed room and a Sent frame is missing |
| Witnesses.CleanupDefeatsAcceptance | Edriel/Edriel.cpp:1090-1104 | a run from the start in which the connected subscriber accepts and reads both frames of a topic and delivers the first alone, as its node timed the publisher out in between |
| Witnesses.LateJoinerStalls | Edriel/Edriel.cpp:1687-1704 | a run from the start, with neither loss nor cleanup before, in which a subscriber that joins late is caught up on a topic, accepts and reads its next frame and does not deliver it, as another topic has spent the marker |
| Witnesses.SecondTopicStalls | Edriel/Edriel.cpp:1687-1704 | the same from any idle state right after a dial |
| Witnesses.Round | Edriel/Edriel.cpp:1594-1779 | from any idle state a publish can be accepted, committed, written and read, and ends in an idle state that differs by just that |
| Disciplines.FirstDialServes | Edriel/EdrielReliableClient.cpp:105-129 | a first dial and its registration, under whatever uid, leave the subscriber served, alone, and caught up on every topic |
| Disciplines.RedialServes | Edriel/EdrielReliableClient.cpp:105-129 | from any reachable state without an open call a dial and its registration serve the subscriber, caught up exactly where the dial let it start over |
| Disciplines.RedialCatchesUp | Edriel/EdrielReliableClient.cpp:112-118 | a dial catches the subscriber up on a topic if and only if it notes the publisher's own uid or the topic's window was in line |
| Lossless.NewFramesGrow | Edriel/Edriel.cpp:1613-1656 | while every commit on the topic is taken and no push goes astray, each step adds to what the subscriber's stream holds exactly what it adds to the topic's committed frames plus the one in flight |
| Ordering.InOrderGrows | Edriel/Edriel.cpp:1577-1656 | whatever a stream accepts next keeps the order of everything its subscriber got before |
| Ordering.TrackedStep | Edriel/EdrielReliableClient.cpp:105-129 | reads so far, continued by what the current stream holds, stay in order; a re-dial cuts off a suffix |
| World.TableStep | Edriel/EdrielGrpcService.cpp:307-353 | every step keeps the subscriber table sound: registration, supersession, guarded eviction |
| SendRefinement.UninterruptedSend | Edriel/Edriel.cpp:1594-1656 | the state machine's uninterrupted call moves sequence and sent log exactly on the send method's verdict and leaves every registered stream as the send method's fan-out does |
| Window.WindowSafety | Edriel/Edriel.cpp:1697-1773 | for any arrivals between two resets delivered tids strictly ascend, nextExpected is past all of them, and buffered tids lie within 255 past it |
| Window.ArriveSafe | Edriel/Edriel.cpp:1706-1773 | one arrival keeps the window invariant and never moves nextExpected back |
| Window.ArriveExact | Edriel/Edriel.cpp:1728-1773 | on any valid window: a frame is released, with everything held back behind it, if and only if it is the first, the next, or 256 or more past an empty window; any other is held back if it is ahead by less and its tid is new, and discarded if not |
| Window.BufferBounded | Edriel/Edriel.cpp:1742-1752 | at most 255 frames are buffered, so the size test never decides |
| Window.NothingInvented | Edriel/Edriel.cpp:1697-1773 | only frames that arrived are delivered or kept |
| Window.GapBehaviour | Edriel/Edriel.cpp:1739-1772 | a strictly ascending stream is delivered up to its first jump of 1 to 255, and nothing after it |
| Window.StuckStaysStuck | Edriel/Edriel.cpp:1768-1772 | a waiting window with a non-empty buffer delivers nothing that lies past it |
| Window.BoundedReorderLossless | Edriel/Edriel.cpp:1706-1752 | e+1 .. e+k in any order, with duplicates, before e: e releases e .. e+k in order and leaves the window empty at e+k+1 |
| Window.AnyReorderLosslessIff | Edriel/Edriel.cpp:1697-1773 | e .. e+k in any order and with any duplicates are all delivered if and only if no a < t < b arrive as b, a, t with everything below a ahead of a |
| Window.ReorderLosslessIff | Edriel/Edriel.cpp:1713-1752 | with e+k among the arrivals before e, and nothing past it after, all of e .. e+k are delivered if and only if e+1 .. e+k had all arrived by then |
| Window.GapAbsorption | Edriel/Edriel.cpp:1713-1728 | arrivals 3, 1, 2 deliver 1, 3 |
| Window.SaturatedTidRepeats | Edriel/Edriel.cpp:1706-1712 | the largest tid saturates nextExpected and is delivered twice |
| Receiver.ReliableReceiver.HandleReliableDataFrame | Edriel/Edriel.cpp:1659-1779 | the in-place handler makes exactly the specified windows, markers and deliveries |
| Receiver.ReliableReceiver.DeliverAndFlush | Edriel/Edriel.cpp:1706-1728 | the delivery loop pushes the frame, then the whole buffer by ascending tid |
| Receiver.ReliableReceiver.NoteReliableStreamEstablished | Edriel/Edriel.cpp:1781-1799 | a re-dial empties and unbaselines every window of the publisher and marks it fresh |
| Receiver.ReliableReceiver.PruneWindows | Edriel/Edriel.cpp:1090-1104 | erases exactly the windows carrying a stale uid's prefix |
| Receiver.OtherPublishersUntouched | Edriel/Edriel.cpp:1672-1704 | frames, resets and prunes of one publisher leave every other publisher's windows as they were |
| Receiver.ResumesFrom | Edriel/Edriel.cpp:1739-1772 | with no marker pending, exactly what a topic's ascending frames deliver into a window waiting for e with an empty buffer: up to the first jump of 1 to 255 |
| Receiver.PrunedTopicResumes | Edriel/Edriel.cpp:1090-1104 | after a cleanup of its publisher a topic's frames count from 1: exactly what they deliver, and when it is nothing |
| Receiver.RedialResumes | Edriel/Edriel.cpp:446-457 | a dial that notes the publisher's uid lets the topic start over with its next frame; one that notes another uid leaves it counting from where it was |
| Receiver.BaselineIsFirst | Edriel/Edriel.cpp:1687-1738 | with the marker pending a topic counts from the first of its frames that is handled |
| Receiver.FreshMarkerSecondTopic | Edriel/Edriel.cpp:1687-1704 | from any receive state without the second topic's window: exactly what that topic delivers once another topic's frame has spent the marker, and when it is nothing |
| Overlap.OverlapOrderIff | Edriel/Edriel.cpp:1680-1773 | however readers, dials and cleanups interleave, the lock releases a publisher's topic in order if and only if each of its windows, made or reset in between, opens with a frame newer than all released before |
| Overlap.OverlapByStream | Edriel/Edriel.cpp:1926-1951 | for tids that ascend along the streams and from stream to stream, that is: no frame of an older stream opens a window after one of a newer stream was released |
| Overlap.OneReaderInOrder | Edriel/EdrielReliableClient.cpp:120-129 | for such tids, streams read one after the other are released in order |
| Overlap.StaleReaderOpens | Edriel/Edriel.cpp:1926-1951 | a run in which the reader of a replaced stream takes the lock after a later dial, and its frame is released behind a newer one |
| Overlap.StaleReaderAfterCleanup | Edriel/Edriel.cpp:1090-1104 | a run in which it does so after a cleanup, with the topic's first frame |
| Overlap.OnceInAnyOrder | Edriel/Edriel.cpp:1706-1772 | for tids that ascend along the streams and from stream to stream, no tid is released twice, whatever the interleaving |
| HandOver.ApplicationOrderIff | Edriel/Edriel.cpp:1680-1778 | where every window opens in order and all was handed over, the application sees a topic in order if and only if each frame was handed over while no older one of the topic was in another reader's hands |
| HandOver.HandedInTurnIff | Edriel/Edriel.cpp:1775-1778 | at every point of every run, whether or not windows open in order: the application has seen a prefix of the release order, the rest being in the readers' hands, if and only if each frame was handed over in turn |
| HandOver.HandsAccount | Edriel/Edriel.cpp:1775-1778 | at every point what was released is what was seen and what is in the readers' hands, each once |
| HandOver.OneAtATimeKeepsOrder | Edriel/EdrielReliableClient.cpp:120-129 | with all hands empty at each take the application's log followed by the hands is the lock's log |
| HandOver.OneReaderSeenInOrder | Edriel/EdrielReliableClient.cpp:120-129 | with streams read one after the other, each reader finished before the next one takes, the application sees every topic in order |
| HandOver.HandsSwap | Edriel/Edriel.cpp:1690-1778 | a run released in order that the application sees in the opposite order |
| Succession.OneAfterAnother | Edriel/EdrielGrpcService.cpp:307-353 | over every run, of two streams of one subscriber one took all its frames of a topic before the other, with smaller tids |
| Succession.ReadersOrdered | Edriel/EdrielReliableClient.cpp:120-129 | over every run, whatever readers take off a subscriber's streams, each in order, has tids ascending along the streams and from stream to stream |
| Keys.PrefixIdentifiesUid | Edriel/Edriel.cpp:1672-1673 | a window key carries the decimal-uid prefix of exactly its own publisher |
| Keys.WindowKeyInjective | Edriel/Edriel.cpp:1672-1673 | window keys collide only for the same publisher and composite key |
| Keys.CompositeKeyInjective | Edriel/Edriel.hpp:41-51 | composite keys separate (topic, type) pairs whose types hold no separator, whatever the topics, and those whose topics hold none, whatever the types |
| Keys.CompositeKeyCollidesIff | Edriel/Edriel.hpp:41-51 | a pair shares its key with another pair if and only if its topic or its type holds the separator, the character 31 |
| Keys.CollisionNeedsBoth | Edriel/Edriel.hpp:41-51 | two pairs with one key have a separator in one of the types and in one of the topics |
| Reactor.LimitsCoherent | Edriel/EdrielGrpcService.cpp:24-45 | lwm < hwm < bound if and only if the bound is at least 2, for all fractions |
| Reactor.FreshReactorAccepts | Edriel/EdrielGrpcService.cpp:24-45 | a fresh stream accepts its first frame if and only if the bound is not 1 |
| StreamPromises.LimitsExact | Edriel/EdrielGrpcService.cpp:24-45 | for every bound from two and all fractions: the high-water mark is its fraction of the bound rounded down, kept from 1 to one below the bound; the low-water mark is its own, or half the high-water mark where it would not lie below |
| Reactor.SubscriberReactor.Enqueue | Edriel/EdrielGrpcService.cpp:222-244 | accepts, refuses with the latch, or reports a dead stream; starts a write when none is in flight |
| Reactor.SubscriberReactor.StartWrite | Edriel/EdrielGrpcService.cpp:257-268 | hands the oldest queued frame to gRPC unless finished, writing or empty |
| Reactor.SubscriberReactor.OnReadFailed | Edriel/EdrielGrpcService.cpp:52-83 | half-close: finish now, after the write, or after the drain; what that comes to is StreamPromises.ReadFailMeans and HalfCloseFromReadFail |
| Reactor.SubscriberReactor.OnWriteDone | Edriel/EdrielGrpcService.cpp:113-149 | next write, low-water resume, drained finish; a failed write finishes as cancelled; what that comes to is StreamPromises.LatchReleasedIff, FinishComes and FinishReports |
| Reactor.SubscriberReactor.MarkCancelled | Edriel/EdrielGrpcService.cpp:151-178 | a client's cancel marks the stream cancelled unless it has finished, and issues no Finish of its own |
| Reactor.SubscriberReactor.Finish | Edriel/EdrielGrpcService.cpp:190-204 | issues Finish once |
| ReactorProtocol.EnqueueIsRun | Edriel/EdrielGrpcService.cpp:222-268 | the enqueue method, undisturbed, is the interleaving machine's push section followed by its write |
| ReactorProtocol.ReadFailedIsRun | Edriel/EdrielGrpcService.cpp:52-83 | the failed read, undisturbed, is a run of the interleaving machine |
| ReactorProtocol.WriteDoneIsRun | Edriel/EdrielGrpcService.cpp:113-149 | the write completion, undisturbed, is a run of the interleaving machine |
| ReactorProtocol.OutboxConservation | Edriel/EdrielGrpcService.cpp:222-268 | in every interleaving accepted frames are those started followed by the outbox, one write at most is outstanding, outbox <= hwm < bound, outbox plus write <= bound, at most one Finish |
| ReactorProtocol.NoLostWakeup | Edriel/EdrielGrpcService.cpp:113-149 | in every interleaving an unfinished stream with queued frames has a write in flight or a thread about to start one, unless a failed write's Finish is pending |
| ReactorProtocol.WakeupLostIff | Edriel/EdrielGrpcService.cpp:113-135 | the one step that loses the wake-up, exactly |
| ReactorProtocol.WakeupLostAfterFailedWrite | Edriel/EdrielGrpcService.cpp:113-135 | a run that reaches it |
| ReactorProtocol.LatchReleased | Edriel/EdrielGrpcService.cpp:137-144 | while a stream stays latched fewer than max(1, outbox - lwm) completions have been handled |
| ReactorProtocol.LatchNeverStuck | Edriel/EdrielGrpcService.cpp:113-149 | with every thread at rest and no failed write, an unfinished stream is neither latched nor holding frames |
| ReactorProtocol.DecisionMeansDrained | Edriel/EdrielGrpcService.cpp:52-83 | a drained-finish decision is taken only when every accepted frame was handed over and completed; on an unfinished stream all writes succeeded if and only if no failed write's own finisher is pending |
| ReactorProtocol.OkFinish | Edriel/EdrielGrpcService.cpp:190-204 | when a drained finish takes effect with status OK it is the only Finish; a write had failed if and only if its own finisher is still pending; the accepted frames never written are exactly those queued then |
| ReactorProtocol.OnlyLateFramesStranded | Edriel/EdrielGrpcService.cpp:52-149 | whatever was accepted before a drained-finish decision is handed to gRPC in every continuation |
| ReactorProtocol.LateFrameStranded | Edriel/EdrielGrpcService.cpp:72-83 | a run in which a frame accepted between decision and Finish is never written though the status is OK |
| ReactorProtocol.FinishFreezes | Edriel/EdrielGrpcService.cpp:212-268 | nothing is accepted, started or finished again on a finished stream, in any interleaving |
| ReactorProtocol.DrainedFinishMayHideLoss | Edriel/EdrielGrpcService.cpp:113-149 | a run whose one Finish, a drained one, reports OK with its only frame lost |
| ReactorProtocol.HalfCloseDrains | Edriel/EdrielGrpcService.cpp:52-149 | once a finish is pending the decision comes after exactly outbox plus in-flight completions, and it comes |
| ReactorProtocol.KeepsFlags | Edriel/EdrielGrpcService.cpp:151-228 | the accept log only grows, teardown flags stay, a dead stream accepts nothing |
| StreamPromises.PushAnswers | Edriel/EdrielGrpcService.cpp:222-244 | a push is accepted, at the end of the outbox, if and only if the stream is unfinished, uncancelled, unlatched and below its high-water mark; it is answered not connected if and only if finished or cancelled; a refusal leaves the stream latched and queues nothing |
| StreamPromises.LatchSetIff | Edriel/EdrielGrpcService.cpp:222-236 | a step of any thread sets the latch if and only if it is a push to a live stream at or above the high-water mark |
| StreamPromises.LatchReleasedIff | Edriel/EdrielGrpcService.cpp:137-144 | a step of any thread releases the latch if and only if it is the drain check of a completion with the outbox at or below the low-water mark |
| StreamPromises.NothingAcceptedAbove | Edriel/EdrielGrpcService.cpp:222-236 | in every interleaving: from a refusal on nothing is accepted until the outbox has been at or below the low-water mark |
| StreamPromises.CancelMarks | Edriel/EdrielGrpcService.cpp:151-178 | a cancel or a supersession of an unfinished stream sets its flag and changes nothing else |
| StreamPromises.CancelStops | Edriel/EdrielGrpcService.cpp:151-228 | from a cancel or a supersession on nothing is accepted, in any continuation |
| StreamPromises.ReadFailMeans | Edriel/EdrielGrpcService.cpp:52-83 | the failed read of an unfinished stream is remembered or decided upon, and decided upon at once if and only if no write is in flight and the outbox is empty |
| StreamPromises.HalfCloseFromReadFail | Edriel/EdrielGrpcService.cpp:52-149 | from the failed read itself, in any state of any run: while nothing more is accepted and no write fails, a drained finish is decided upon only once every frame accepted before is written and completed, and has been once the last completion is handled |
| StreamPromises.FinishComes | Edriel/EdrielGrpcService.cpp:113-204 | over every run: after a drained-finish decision or a failed write, and with no thread on its way to finish it, the stream is finished, once |
| StreamPromises.FinishReports | Edriel/EdrielGrpcService.cpp:190-210 | the Finish of a failed write says cancelled, a drained one says whether the stream was cancelled when its status was read |
| Publisher.ParticipantStreamService.RegisterSubscriber | Edriel/EdrielGrpcService.cpp:332-344 | the newer dial takes the key and a different predecessor is superseded, hence dead |
| Publisher.ParticipantStreamService.UnregisterSubscriber | Edriel/EdrielGrpcService.cpp:346-353 | evicts this stream only, never a successor |
| Publisher.ParticipantStreamService.PushData | Edriel/EdrielGrpcService.cpp:307-318 | answers by the key's outbox alone and changes no other stream |
| Publisher.ParticipantStreamService.IsSendable | Edriel/EdrielGrpcService.cpp:320-324 | the probe says exactly whether a push now would be accepted |
| Publisher.ParticipantStreamService.HasSubscriber | Edriel/EdrielGrpcService.cpp:355-364 | yes if and only if the key is registered and its stream is live |
| Publisher.FanOut | Edriel/Edriel.cpp:1613-1640 | each subscriber is pushed once, the report holds each answer under its key, the flags say whether anybody accepted or refused |
| Publisher.ReliablePublisher.SubscribersOf | Edriel/Edriel.cpp:1564-1577 | the subscribers found in the topic's home shard are those of the merged registry |
| Publisher.OfferedTo | Edriel/Edriel.cpp:1564-1577 | after any run that takes no peer off a list, a send is offered to exactly those that were listed as subscribers and the foreign peers that announced themselves as such during the run |
| Publisher.AnswerMeans | Edriel/EdrielGrpcService.cpp:212-236 | on the fields of the key's stream: the exact condition of each answer of a push |
| Publisher.VerdictAnswers | Edriel/Edriel.cpp:1613-1656 | for any table and any listed subscribers, on the fields of their streams: Sent if and only if one would take the frame; Backpressured if and only if none would and one is neither finished nor cancelled; NoSubscribers if and only if all are missing, finished or cancelled |
| Publisher.SendExplained | Edriel/Edriel.cpp:1516-1657 | the result on every path: not serving without a service; backpressured with less than one token after the refill; no subscribers if none is listed; not serving if the frame has no size or more than 1500 bytes; else that of the fan-out |
| Publisher.ReliablePublisher.TryPublishReliable | Edriel/Edriel.cpp:1516-1657 | the result of every path as in SendExplained, pushes to exactly the subscribers the registry lists for the topic, and the tid committed exactly when somebody accepted |
| Publisher.ReportKeyInjective | Edriel/Edriel.cpp:1626-1629 | report keys identify subscribers |
| Pacing.RateCeiling | Edriel/Edriel.cpp:1535-1560 | over any stretch of calls spanning T fewer than rate * T + rate + 1 pass |
| Pacing.TokensBounded | Edriel/Edriel.cpp:1535-1560 | tokens stay between 0 and the rate over every run |
| Pacing.RestedCallPasses | Edriel/Edriel.cpp:1547-1559 | a call at least 1/rate after the last refill always passes |
| Pacing.FirstEverPasses | Edriel/Edriel.cpp:1538-1545 | the bucket starts full: the first paced call passes, and as many at that instant as the rate says, and no more |
| Pacing.BurstExact | Edriel/Edriel.cpp:1535-1560 | of any number of calls at one instant exactly as many pass as a bucket with nothing to refill holds whole tokens |
| Pacing.RestedBurst | Edriel/Edriel.cpp:1546-1559 | a second after the last refill as many calls at one instant pass as the rate says, and no more |
| Pacing.CallCosts | Edriel/Edriel.cpp:1556-1559 | a call passes if and only if a token is there after the refill, and takes exactly one |
| Publisher.ReliablePublisher.PassBucket | Edriel/Edriel.cpp:1535-1560 | the in-place bucket is the specified one |
| Ring.RingConserves | Edriel/EdrielRing.hpp:55-107 | published = popped + queued + evicted as multisets, no eviction means exact FIFO, everything behind the front is in publish order |
| Ring.OverflowBreaksOrderIff | Edriel/EdrielRing.hpp:64-69 | a queue of two or more is in publish order if and only if its front was not put there by an overflow |
| Ring.PoppedInOrderIff | Edriel/EdrielRing.hpp:55-87 | the consumer sees publish order if and only if it never pops a frame that was already queued when it popped an overflow's newcomer from the front |
| Ring.SecondOverflowEvictsNewest | Edriel/EdrielRing.hpp:64-69 | a second overflow in a row evicts the previous newcomer |
| Ring.CollisionFreeIff | Edriel/EdrielRing.hpp:130-132 | counters within one capacity never share a slot, wrap included, if and only if the capacity divides 2^64 |
| Ring.SpscRing.Publish | Edriel/EdrielRing.hpp:55-73 | array and wrapping counters refine the bounded queue: append, or replace the front and count a drop |
| Ring.SpscRing.Pop | Edriel/EdrielRing.hpp:78-87 | takes the front; nothing only when closed and drained |
| Config.RingSlotsExact | Edriel/EdrielConfig.cpp:92-104 | accepted slot counts are exactly the powers of two from 2, on which the ring's counters may wrap |
| Config.SingleBit | Edriel/EdrielConfig.cpp:97-101 | n & (n-1) is zero exactly for powers of two |
| Config.ParseExact | Edriel/EdrielConfig.cpp:92-120 | the decimal digits of a number are read back up to 2^64-1 and refused beyond; an empty text and any other character are refused |
| Config.LoadOutbox | Edriel/EdrielConfig.cpp:346-405 | the trio falls back as a whole exactly when one key is bad or the marks cross |
| Wire.VarintRoundTrip | Edriel/Edriel.cpp:109-123 | varint decode inverts encode for every 64-bit value and stops behind it |
| Wire.FieldRoundTrip | Edriel/Edriel.cpp:125-162 | a length-delimited field reads back as its number and body |
| Wire.TagExact | Edriel/Edriel.cpp:148-160 | every tag of up to 64 bits reads back as its wire type and its field number cut to 32 bits |
| Wire.LengthExact | Edriel/Edriel.cpp:125-136 | a length of up to 64 bits yields that many bytes and stops behind them, or fails where there are fewer |
| Wire.SkipExact | Edriel/Edriel.cpp:138-150 | a varint, an eight-byte and a four-byte field are skipped to their last byte |
| Wire.SkipRefuses | Edriel/Edriel.cpp:138-150 | what is cut short and every other wire type but length-delimited is refused |
| Wire.LongVarint | Edriel/Edriel.cpp:109-123 | ten continued bytes, or a varint that does not end, are refused |
| Wire.RouterSkips | Edriel/Edriel.cpp:179-248 | any such field put before a frame or a data message leaves the route as it was |
| Wire.RouterOnData | Edriel/Edriel.cpp:177-248 | on the canonical data frame the router returns exactly the composite key when both names are non-empty, and otherwise gives up |
| Wire.RouterOnOthers | Edriel/Edriel.cpp:221-248 | heartbeats and advertisements are left to the full decode |
| Wire.FullNamesOnCanonical | Edriel/Edriel.cpp:221-248 | a last-occurrence-wins decode of a canonical frame finds a data message's names, and none in anything else |
| Wire.RouterAgreesIff | Edriel/Edriel.cpp:166-248 | on any well-formed bytes that the router takes, it and the full decode find the same names if and only if the content set last is a data message whose last topic and last type are the first pair of the first content |
| Wire.RouterAgreesUnlessRepeated | Edriel/Edriel.cpp:93-101 | on any well-formed bytes with one content and no name repeated in it, the route is that of the full decode |
| Wire.CanonicalIsPlain | Edriel/Edriel.cpp:177-210 | the canonical data frames are of that kind |
| Wire.SecondContentDisagrees | Edriel/Edriel.cpp:93-101 | a data message followed by an identity is routed by its topic, and holds no names for the full decode |
| Wire.RepeatedNamesAgreeIff | Edriel/Edriel.cpp:179-210 | on a canonical body continued by another, the two agree if and only if each later name is empty or the same again |
| Wire.FirstNamesWin | Edriel/Edriel.cpp:179-210 | what follows the first complete pair of names does not change the route |
| Wire.ReadRoutingKey | Edriel/Edriel.cpp:221-248 | the in-place walk computes the specified route |
| Wire.ReadDataMessageRoutingKey | Edriel/Edriel.cpp:179-210 | the in-place walk of the body finds the specified names |
| Wire.WireCursor.ReadVarint | Edriel/Edriel.cpp:109-123 | the shift-and-or loop reads the specified varint |
| Pipeline.KeyOrder | Edriel/Edriel.cpp:786-852 | for any worker count, hash and schedule, while its ring evicted nothing, a routing key's dispatched frames are a prefix of its arrivals, and all of them once drained |
| Pipeline.TopicOrder | Edriel/Edriel.cpp:786-852 | so are the well-formed frames that decode to a topic, with one content and no name repeated, of those that arrived on it |
| Pipeline.PlainRouting | Edriel/Edriel.cpp:804-832 | every such frame that the parser accepts is routed as by the full decode |
| Pipeline.RoutingFaithful | Edriel/Edriel.cpp:804-832 | every canonical frame that the parser accepts is routed as by the full decode |
| Pipeline.EnvelopeExact | Edriel/Edriel.cpp:786-799 | a datagram carries a body if and only if it is the magic number followed by that body |
| Pipeline.ArrivalExact | Edriel/Edriel.cpp:800-836 | a routed frame joins the ring of its key, and no other, unless that is closed; then nothing changes |
| Ownership.WorkerOwnsShard | Edriel/Edriel.cpp:786-836 | on accepted frames that repeat neither content nor name, the ring chosen is that of the shard which holds what the content is about, and there is none exactly if there is no content |
| Ownership.SameTopicSameWorker | Edriel/Edriel.cpp:617-628 | data frames and advertisements of one topic go to one worker, the one whose shard holds the entry |
| Ownership.ShardsReached | Edriel/Edriel.cpp:617-628 | a key with a hash below the number of shards lives in the shard of that number, and two keys share a shard if and only if their hashes differ by a multiple of that number |
| Pipeline.HandleReceivedDatagram | Edriel/Edriel.cpp:786-836 | a frame with the magic number goes to the ring of its key and to no other |
| Pipeline.WorkerLoop | Edriel/Edriel.cpp:838-852 | from any ring, up to where the pop would wait, the worker dispatches the decodable backlog in order; it ends if and only if the ring is closed |
| Registry.ShardedRefinesFlat | Edriel/Edriel.cpp:617-656 | after any run of operations the merged shards are what one flat registry would hold |
| Registry.CleanupRefines | Edriel/Edriel.cpp:1041-1088 | cleaning the shards cleans the merged registry |
| Registry.CleanupExact | Edriel/Edriel.cpp:1061-1088 | no trace of an evicted uid is left, every other peer stays, entries without peers and callbacks go |
| Registry.PruneExact | Edriel/Edriel.cpp:1090-1109 | exactly the evicted uids' windows are erased |
| Registry.WatchedRun | Edriel/Edriel.cpp:970-991 | over every run each peer a topic lists is a watched participant |
| Registry.RunningCleanupIff | Edriel/Edriel.cpp:1041-1088 | with any operations but the unregistration of a publisher before and after the purge reaches a topic, it lists the peers it would after an atomic cleanup if and only if every evicted peer that announced itself early did so again late |
| Registry.RunningCleanupAgreesIff | Edriel/Edriel.cpp:1041-1088 | over any run of such operations between eviction and purge all topics agree with the atomic cleanup if and only if no evicted peer announced anything |
| Registry.PurgeCommutesIff | Edriel/Edriel.cpp:1061-1088 | exactly which registrations, unregistrations and announcements commute with the purge |
| Registry.ReturningPeerIsForgotten | Edriel/Edriel.cpp:1041-1088 | a peer that returns between eviction and purge is registered but listed nowhere |
| RegistryPromises.TopicOpExact | Edriel/Edriel.hpp:925-1118 | for every announcement, registration, subscription and unregistration: what becomes of the entry (that it is there, its names, peers, callbacks, reliability), while every other topic and every participant stays as it was |
| RegistryPromises.HeartbeatExact | Edriel/Edriel.cpp:1003-1031 | a foreign heartbeat leaves its sender last seen now and with the endpoints it carries, under the identity first heard, and changes nothing else |
| RegistryPromises.HeardPeerStays | Edriel/Edriel.cpp:1003-1088 | over every run a foreign peer is registered exactly as its last heartbeat said until a cleanup finds that expired |
| RegistryPromises.TimeoutExact | Edriel/Edriel.cpp:1041-1088 | the timeout cleanup keeps a peer, with all its listings, if and only if it was last seen no longer ago than the timeout |
| RegistryPromises.HeardPeerSurvives | Edriel/Edriel.hpp:184-194 | over every run a peer that has been heard within the timeout survives the cleanup, wherever it is listed |
| RegistryPromises.NeverListsItself | Edriel/Edriel.cpp:1003-1137 | over every run from an empty registry, looped-back frames included, the node neither registers nor lists itself |
| Registry.ShardedRegistry.RemoveTimedOutParticipants | Edriel/Edriel.cpp:1041-1111 | the three in-place phases do exactly the specified cleanup and window pruning |
| Registry.ShardedRegistry.HandleParticipantHeartbeat | Edriel/Edriel.cpp:1003-1031 | refreshes or creates the peer in its home shard, never the node itself; what that comes to is RegistryPromises.HeartbeatExact |
| Registry.ShardedRegistry.HandleTopicAnnouncement | Edriel/Edriel.cpp:1125-1155 | lists the peer in the topic's home shard |
| Registry.ShardedRegistry.RegisterSubscriberTopic | Edriel/Edriel.hpp:958-1038 | the entry and the set of reliable subscriptions after a local registration |
| Registry.ShardedRegistry.UnregisterPublisherTopic | Edriel/Edriel.hpp:925-947 | keeps the entry if and only if a callback remains (RegistryPromises.TopicOpExact), remote peers or not |
| Registry.ShardedRegistry.SubscribeTopic | Edriel/Edriel.hpp:1052-1078 | adds a callback to an entry that exists and reports whether it did |
| Registry.ShardedRegistry.UnregisterSubscriberTopic | Edriel/Edriel.hpp:1089-1118 | clears callbacks and drops the entry when no peer remains |
| Registry.ShardedRegistry.MergeRegistrySnapshot | Edriel/Edriel.cpp:637-645 | the merge loop builds the merged topics |
| Reconcile.AlwaysIdleIff | Edriel/Edriel.cpp:1828-1952 | on the inputs: a second pass does nothing, whatever the connections and their honest answers, if and only if every seed whose key is also another target's has its endpoint on that target's list |
| Reconcile.SecondRunIdleIff | Edriel/Edriel.cpp:1894-1944 | per state: a second pass with unchanged inputs changes nothing if and only if the first put no new connection onto an endpoint that some target of its key lacks |
| Reconcile.SecondRunIdle | Edriel/Edriel.cpp:1828-1952 | so it changes nothing when targets agree on their keys and new connections report candidates |
| Reconcile.IdleIff | Edriel/Edriel.cpp:1895-1944 | a pass changes nothing if and only if the keys are the needed ones and nobody is on an endpoint that is gone |
| Reconcile.KeysExact | Edriel/Edriel.cpp:1898-1944 | the connection keys become exactly the needed keys |
| Reconcile.NothingLeaks | Edriel/Edriel.cpp:1894-1951 | every old and every new connection ends up once in the table, among the dropped or among the replaced |
| Reconcile.KeptExactly | Edriel/Edriel.cpp:1898-1934 | an old connection survives exactly when it is needed and its endpoint is still a candidate |
| Reconcile.PassSettlesIff | Edriel/Edriel.cpp:1916-1944 | nobody is on an endpoint outside a target's candidates after a pass, under exactly the same condition on the new connections |
| Reconcile.PassSettles | Edriel/Edriel.cpp:1916-1944 | nor is anybody when targets agree on their keys and new connections report candidates |
| Reconcile.ClashKeepsDialing | Edriel/Edriel.cpp:1920-1944 | while the connection of two targets' common key is up on an endpoint not on both lists every pass dials again |
| Reconcile.WantedFunctional | Edriel/Edriel.cpp:1847-1887 | targets agree on a key's candidates unless a seed's key clashes |
| Reconcile.WantedExact | Edriel/Edriel.cpp:1847-1887 | a key is dialed with given candidates if and only if it publishes a subscribed topic and advertises just these, at least one, or there is a reliable subscription and a seed with that key and endpoint |
| Reconcile.DialedExactly | Edriel/Edriel.cpp:1828-1944 | after building the targets and a pass there is a connection under a key if and only if one of the two holds |
| Reconcile.SurvivesIff | Edriel/Edriel.cpp:1898-1934 | an old connection survives a pass if and only if its key is needed and it reports no endpoint yet or one that every target of the key lists |
| Reconcile.ReliableConnections.BuildTargets | Edriel/Edriel.cpp:1829-1887 | the loops over shards and seeds collect exactly the wanted targets, by the condition of WantedExact, the registry's first and then the seeds in their order |
| Reconcile.ReliableConnections.Reconcile | Edriel/Edriel.cpp:1894-1944 | the in-place pass makes the specified table and retires exactly what left it |

## Left out

- Sockets, timers, strands, kernel drop counters, logging and interface discovery: a datagram is a sequence of bytes, a clock reading a real number.
- gRPC itself: what is kept is FIFO delivery per stream, one completion per write, OnDone last, and a lost suffix at teardown.
- The dialing loop of EdrielReliableClient.cpp: a dial is one step that creates the stream and notes it on the subscriber (the code notes it after its first write and before its first read). The machine of World.dfy has one reader thread at a time, which hands a frame over before it reads the next; several readers are the subject of Overlap.dfy and HandOver.dfy.
- HandOver.ApplicationOrderIff: a frame is handed over when its callbacks start; callbacks of two readers may then run at the same time.
- Lock order, deadlock freedom and memory ordering: a mutex section is one atomic step. A table lookup and the enqueue it leads to are one step, as both run under `subsMutex_`.
- Payload decoding and user callbacks: payloads are opaque, a callback is counted; of the full decode the pipeline models the names, while what else makes the parser accept a frame and what other contents mean are parameters; a reliable frame that does not decode is dropped before the model's receiver sees it.
- Pointer overflow in `WireCursor` on absurd lengths: positions are mathematical integers.
- FNV-1a's values: the hash is an arbitrary function.
- YAML walking and the parsers of the other configuration keys: number parsing of water marks is a parameter.
- Rounding of doubles in water marks and in the token bucket: both are over the reals.
- Telemetry: outbox depth, kernel overruns and the sum of drop counters.
- EndToEnd.OrderedExactlyOnce: covers tids below 2^64-1, the value at which the window saturates; the run's publishes stay short of it.
- ReactorProtocol.NoLostWakeup: has the exception that ReactorProtocol.WakeupLostIff makes exact.
- Pipeline.TopicOrder: says nothing about a key whose ring has evicted a frame; Ring.RingConserves says what order is left then.
- Pipeline.WorkerLoop: waiting on an empty open ring ends the call; the interleaving of waits and publishes is the state machine of Pipeline.TopicOrder.
- Registry.ShardedRefinesFlat: takes each operation, the cleanup included, as one step; what the phases of a running cleanup let through is Registry.RunningCleanupIff.
- Registry.RunningCleanupIff: leaves out the unregistration of a publisher between the phases, which drops an entry and the peers on it; Registry.PurgeCommutesIff says that it commutes with the purge.
- Reconcile.SecondRunIdleIff: takes what each connection reports as fixed during and between the passes.
- Publisher.ReliablePublisher.TryPublishReliable: receives the serialized size of a frame and the clock reading as parameters.
