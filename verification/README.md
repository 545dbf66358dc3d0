# Verification of the RTMP relay, the recoder server and its configuration codec

This project models and proves the stateful core of the repository:

- **the RTMP relay** (`xaionaro-go-rtmp/yutoppgortmp`): a publisher caches sequence headers, the last key
  frame and the tags since it; every new subscriber is sent a replay of that cache and then the live tags
  through a bounded queue; subscribers are closed by any number of goroutines at once; a registry of
  streams tells its waiters about changes by closing a channel and installing a fresh one;
- **the gRPC server's resources** (`libav/process/server/server.go`): contexts, inputs and outputs with
  their IDs, the one-shot start, the end channel with two closers, and the lock order;
- **output stream indices** (`libav/process/server/frame_streams_merger.go`);
- **the encoder configuration on the wire** (`libav/grpc/goconv`), with machine-integer truncation.

## How it is built

Each protocol is first a step relation over values with ghost histories (`Broadcast`, `Relay`, `Lifecycle`,
`Locks`): `Next` gives one atomic step, `Exec` a run, and theorems quantify over every run. What the steps
maintain is one invariant per machine, and every theorem about reachable worlds follows from it. Beside the
machines stand classes with the Go objects' fields (`Publisher`, `SubscriberObject`, `PubSub`, `GrpcServer`,
`Merger`, `Views`), whose methods are proved to do to their abstract state exactly what the corresponding pure step does.

| file | content |
|---|---|
| `Flv`, `Sequences`, `Runs`, `Wrappers` | tags, positions and projections of a log, subsequences, runs of a step relation |
| `TagCache` | the cache step and its meaning as a function of the log |
| `LateJoin` | the stream a subscriber is sent, as a function of log and join point |
| `Subscriber` | one queue, one sender, any number of interleaved `Close` calls |
| `Broadcast`, `BroadcastInvariant`, `BroadcastTheorems`, `BroadcastProgress`, `BroadcastLiveness` | a publisher with all its subscribers |
| `SubscriberRuns`, `PublishSteps` | what several steps come to, and that these summaries are runs of `Broadcast` |
| `Relay` | the stream registry and its waiters |
| `Views`, `Publisher`, `ViewIsolation` | tag views sharing byte arrays, the cache as an object, isolation |
| `SubscriberObject`, `Publishing`, `PubSub` | `Sub`, `Publish`, `Pubsub`, `RelayService`, `Handler` as objects |
| `Lifecycle`, `GrpcServer`, `Locks` | server resources as values, as objects, and their locks |
| `Merger`, `Conversion` | index assignment, configuration codec |

## As written, and repaired

The code is modelled as written. Where it differs from its evident intent, a named switch selects a one-line
repair, and each theorem says for which variant it holds:

- **R1** (`r1`): re-slicing the nil slice at `pubsub.go:231` gives nil, so the tags since the key frame are
  never cached; R1 makes that line yield an empty, non-nil slice.
- **R2** (`r2`): the closer goroutine started at `pubsub.go:63` ranges over the map emptied at
  `pubsub.go:60-62`; R2 gives it a copy made before.
- **R3** (`r3`): `removePubsub` deletes by name (`relay_service.go:131`), so a replaced publisher's late
  `Close` removes its successor; R3 deletes only if the registered pubsub is the caller.

Properties that the code as written does not have come with a concrete run or input, and with the exact
condition under which they hold:

| does not always hold | shown by | holds exactly when |
|---|---|---|
| a delivered tag's decoder configuration | `ConfigurationLostAsWritten` | `DecoderConfiguration` |
| no callback once closed | `CallbackStartsAfterClosed` | `NoCallbackExactlyWhen` |
| deregistration closes all subscribers | `DeregistrationIncompleteAsWritten` | `DeregistrationAsWrittenExactlyWhen` |
| deregistering touches no other pubsub | `StaleDeregisterAsWritten` | `TouchesNoOtherExactlyWhen`, `DeregistrationTouchesNoOther` |
| media types share no output index | `SharedIndex` | `SharingExactlyWhen` (accepted configurations) |
| sections exclude each other | `OutputsNotExclusive` | `TogetherExactlyWhen` |
| an unregistered context's end is announced | `DieStrandsAContext` | `EndChannelClosedExactlyWhen`, `EndCanComeExactlyWhen` |
| `Die` completes | `DiePanics` | `DieCompletesExactlyWhen` |
| the wire format loses nothing | `LostOnTheWire` | `LosslessExactlyWhen`, `MsgLosslessExactlyWhen` |

Assumptions:

- Steps are atomic at the granularity of critical sections and single channel operations; there are no
  torn reads or writes.
- `Publish` calls on one publisher are serialised by the connection's reader; closing a connection does not
  re-enter the subscriber synchronously.
- `Deregister` reaches `removePubsub` without the service's lock (`pubsub.go:54, 71`); `removePubsub` is
  taken as one atomic step. Likewise `NewPubsub` deregisters the old pubsub without that pubsub's own lock
  (`relay_service.go:34`, `pubsub.go:57-68`); a deregistration is taken as atomic against registrations.
- The loop of `Publish` runs over the live map (`pubsub.go:193-195, 247`): keys present at its start are
  visited unless removed first, in any order, and later keys may or may not be.
- `WaitPubsub` shadows its context (`relay_service.go:74`), so a waiter has no cancelled outcome.
- A panic in a handler of the server is not recovered and ends the process: after one there are no steps.
- The byte array behind a tag is filled before the tag is published and not written afterwards.

## Model

| member | source | states |
|---|---|---|
| Flv.KindsByCode | xaionaro-go-rtmp/yutoppgortmp/pubsub.go:205-241 | the tag kinds by their numeric codes: packet type 0 for sequence headers, frame type 1 for key frames |
| Flv.ProjectKeeps | xaionaro-go-rtmp/yutoppgortmp/pubsub.go:205-241 | a track of a log is every tag of the track, as often as it occurs, in order, and nothing else |
| TagCache.CacheRefinesLog | xaionaro-go-rtmp/yutoppgortmp/pubsub.go:197-245 | after any published log the six cache fields are functions of the log alone: last headers, last headers before the last key frame, last key frame, and under R1 the suffix after it; as written the slice stays nil |
| TagCache.StepAtKeyFrame | xaionaro-go-rtmp/yutoppgortmp/pubsub.go:227-238 | promoting "after" headers at a key frame yields exactly the last headers preceding that key frame in the whole log |
| LateJoin.LateJoinEquivalence | xaionaro-go-rtmp/yutoppgortmp/pubsub.go:141-253 | for every log, join point and length: all but at most two replayed headers of the stream are published tags in order, each once, and precisely the kept positions (contiguous under R1; as written minus those after the key frame up to the trigger) |
| LateJoin.DecoderConfiguration | xaionaro-go-rtmp/yutoppgortmp/pubsub.go:150-175 | a delivered audio or video tag is preceded by the sequence header it was published under if and only if `ConfigurationCarried`, which always holds under R1, for the key frame and without a key frame |
| LateJoin.ConfigurationLostAsWritten | xaionaro-go-rtmp/yutoppgortmp/pubsub.go:198-203 | a five-tag log in which, as written, a header between key frame and trigger is lost and the next tag gets the older configuration |
| LateJoin.TrackOrder | xaionaro-go-rtmp/yutoppgortmp/pubsub.go:149-176 | each track of a subscriber's stream is a subsequence of that track of the log, in both variants |
| Subscriber.SubmitKeepsFeed | xaionaro-go-rtmp/yutoppgortmp/pubsub.go:335-354 | enqueue-or-drop keeps the bound of 1200, conservation, order, the exact prefix before the first overflow, and that at least 1200 tags were accepted before it |
| Subscriber.AcceptedExactlyWhen | xaionaro-go-rtmp/yutoppgortmp/pubsub.go:93 | a tag is accepted iff fewer than 1200 are queued, dropped iff 1200 are |
| Subscriber.CloseStepKeepsShut | xaionaro-go-rtmp/yutoppgortmp/pubsub.go:389-415 | any step of any of the interleaved `Close` calls keeps mutual exclusion, single closing, and that a closed subscriber is registered only while the lock holder is about to unregister it |
| BroadcastInvariant.StepKeepsInv | xaionaro-go-rtmp/yutoppgortmp/pubsub.go:49-78 | every step of publisher, subscribers, senders, closers and deregistrations keeps the invariant of the whole protocol |
| BroadcastTheorems.QueueConservation | xaionaro-go-rtmp/yutoppgortmp/pubsub.go:292-354 | over all interleavings: at most 1200 queued, pulled followed by queued is what was accepted, accepted is a subsequence of submitted, every drop started a `Close` and at least 1200 tags were accepted before the first; the closed-queue branch is unreachable, since nothing closes a queue |
| BroadcastLiveness.SenderIdleExactlyWhen | xaionaro-go-rtmp/yutoppgortmp/pubsub.go:300-332 | in every reachable world the sender has nothing to do iff it ended, which takes a cancelled context, or waits uncancelled at an empty queue |
| BroadcastLiveness.SenderDrains | xaionaro-go-rtmp/yutoppgortmp/pubsub.go:300-332 | from every reachable world the sender of a subscriber not cancelled can, by its own steps alone, deliver everything accepted |
| BroadcastLiveness.CloseCallsCounted | xaionaro-go-rtmp/yutoppgortmp/pubsub.go:341-353 | over all interleavings a subscriber has exactly one `Close` call for each dropped tag and each request from outside |
| BroadcastTheorems.CloseExactlyOnce | xaionaro-go-rtmp/yutoppgortmp/pubsub.go:389-415 | the connection is closed at most once and the channel exactly once, by the first call to complete; once closed with the lock free the subscriber is in no registry entry; never two calls in the critical section |
| BroadcastTheorems.RunEvolves | xaionaro-go-rtmp/yutoppgortmp/pubsub.go:356-415 | over any continuation of any run: closed stays closed, unregistered stays unregistered, histories only grow, the trigger is set once |
| BroadcastTheorems.ClosedNeverRegisteredAgain | xaionaro-go-rtmp/yutoppgortmp/pubsub.go:407-412 | a closed subscriber whose lock is free is absent from the registry after any continuation |
| BroadcastProgress.CloseProgress | xaionaro-go-rtmp/yutoppgortmp/pubsub.go:389-415 | in every reachable world with an unfinished `Close` call some call of that subscriber can step |
| BroadcastProgress.CloseStepsBounded | xaionaro-go-rtmp/yutoppgortmp/pubsub.go:389-415 | every schedule of the calls under way has at most seven steps a call |
| BroadcastProgress.ClosesFinish | xaionaro-go-rtmp/yutoppgortmp/pubsub.go:389-415 | from every reachable world all calls can be brought to their return, after which a subscriber with a call is closed and unregistered |
| BroadcastProgress.OverflowEndsClosed | xaionaro-go-rtmp/yutoppgortmp/pubsub.go:344-353 | from every reachable world after a dropped tag the calls it started can be run, within the bound, until the subscriber is closed, with its connection, and unregistered |
| BroadcastTheorems.CallbacksAfterClose | xaionaro-go-rtmp/yutoppgortmp/pubsub.go:356-378 | once `closed` is set, over any continuation at most one more callback starts, the one already past its check |
| BroadcastTheorems.NoCallbackExactlyWhen | xaionaro-go-rtmp/yutoppgortmp/pubsub.go:356-378 | once `closed` is set, the subscriber receives nothing more on every continuation iff the sender is not past its check |
| BroadcastTheorems.CallbackStartsAfterClosed | xaionaro-go-rtmp/yutoppgortmp/pubsub.go:360-377 | a run in which a callback starts after `Close` has returned |
| BroadcastTheorems.FeedIsStream | xaionaro-go-rtmp/yutoppgortmp/pubsub.go:247-251 | what was submitted to a subscriber is a prefix of its stream, and all of it for a registered one between publications; callbacks before the first overflow get a prefix too, and a registered subscriber without drops that has drained its queue has received the whole stream |
| BroadcastLiveness.PublishReachesAll | xaionaro-go-rtmp/yutoppgortmp/pubsub.go:191-253 | from every reachable world a tag can be published through, after which every registered subscriber was submitted its whole stream, this tag included |
| BroadcastLiveness.NewcomerVisited | xaionaro-go-rtmp/yutoppgortmp/pubsub.go:193-195 | a subscriber registered during a publication may be initialised by that very publication |
| BroadcastTheorems.DeliveredIsLateJoin | xaionaro-go-rtmp/yutoppgortmp/pubsub.go:141-253 | late-join equivalence for the callbacks of every reachable world, up to the first overflow |
| BroadcastTheorems.DeliveredConfiguration | xaionaro-go-rtmp/yutoppgortmp/pubsub.go:205-241 | decoder configuration for the callbacks of every reachable world, with the exact condition as written and always under R1 |
| BroadcastTheorems.DeliveredTrackOrder | xaionaro-go-rtmp/yutoppgortmp/pubsub.go:335-378 | callbacks of one track are a subsequence of that track of the log even when tags were dropped |
| BroadcastTheorems.DeliveredTrackPositions | xaionaro-go-rtmp/yutoppgortmp/pubsub.go:335-378 | the same in positions: the callbacks of a track are tags of the log at strictly increasing places |
| BroadcastTheorems.DeregistrationComplete | xaionaro-go-rtmp/yutoppgortmp/pubsub.go:57-78 | under R2 a finished closer goroutine leaves every subscriber of its deregistration closed and unregistered; as written it never turns to any of them |
| BroadcastProgress.CloserCanEnd | xaionaro-go-rtmp/yutoppgortmp/pubsub.go:63-67 | from every reachable world every closer goroutine can be brought to its end |
| BroadcastProgress.DeregistrationCanComplete | xaionaro-go-rtmp/yutoppgortmp/pubsub.go:57-78 | under R2 every deregistration can be carried through from any reachable world, all its subscribers closed and unregistered |
| BroadcastTheorems.DeregistrationAsWrittenExactlyWhen | xaionaro-go-rtmp/yutoppgortmp/pubsub.go:57-68 | as written, deregistering closes every subscriber on all continuations in which its goroutine ends iff each registered subscriber was already being removed by a `Close` call of its own; without such calls, iff nobody was registered |
| BroadcastTheorems.DeregistrationIncompleteAsWritten | xaionaro-go-rtmp/yutoppgortmp/pubsub.go:58-66 | a run in which, as written, the closer goroutine ends and its only subscriber is open |
| BroadcastLiveness.NewcomerClosedAsWritten | xaionaro-go-rtmp/yutoppgortmp/pubsub.go:63-67 | as written the closer goroutine may close a subscriber registered after the deregistration |
| BroadcastTheorems.KeysIdentifySubscribers | xaionaro-go-rtmp/yutoppgortmp/pubsub.go:101-125 | registry keys are below the next key and belong to exactly one subscriber, so a late `RemoveSub` hits no other |
| BroadcastLiveness.RegisterGives | xaionaro-go-rtmp/yutoppgortmp/pubsub.go:95-118 | registering adds exactly one subscriber, with nothing behind it and the connection given, and changes nobody else |
| BroadcastLiveness.RegisteredStays | xaionaro-go-rtmp/yutoppgortmp/pubsub.go:95-125 | over any continuation a registered subscriber stays registered, unless a deregistration comes or its own `Close` marks it closed |
| Relay.NoLostWakeup | xaionaro-go-rtmp/yutoppgortmp/relay_service.go:59-92 | a waiter blocked on an open channel has nothing due; one whose channel was closed, and no other, can wake; the installed channel is open and every earlier one was closed exactly once |
| Relay.PollAnswers | xaionaro-go-rtmp/yutoppgortmp/relay_service.go:73-90 | in every reachable world a pass of the loop returns exactly the pubsub due, for a plain waiter the one bound to the name, and else blocks on the installed channel |
| Relay.WaiterCanReturn | xaionaro-go-rtmp/yutoppgortmp/relay_service.go:73-90 | whenever something is due a waiter can return it by at most three steps of its own |
| Relay.ChannelChangesExactlyWhen | xaionaro-go-rtmp/yutoppgortmp/relay_service.go:42-46 | every step closes the installed channel, once, iff it changes what is registered |
| Relay.RegistryIsFold | xaionaro-go-rtmp/yutoppgortmp/relay_service.go:28-57 | in terms of the calls made: a name is bound to a pubsub iff a `NewPubsub` of the name created it and no later call replaced the name, removed it, or deregistered a pubsub of that name (under R3, that pubsub) |
| Relay.WaitReturnsNewPubsub | xaionaro-go-rtmp/yutoppgortmp/relay_service.go:64-82 | waiting for the next pubsub returns one of the right name created after the first read |
| Relay.SinceIsFirstRead | xaionaro-go-rtmp/yutoppgortmp/relay_service.go:65-71 | the first read of a call waiting for the next pubsub fixes the pubsub to pass over and the number of pubsubs then; nothing else changes them |
| Relay.WaitsAsAsked | xaionaro-go-rtmp/yutoppgortmp/relay_service.go:59-63 | a call waits for the name and in the mode it was given |
| Relay.NeverRegisteredAgain | xaionaro-go-rtmp/yutoppgortmp/relay_service.go:40-42 | a pubsub once unregistered is unregistered after any continuation |
| Relay.TouchesNoOtherExactlyWhen | xaionaro-go-rtmp/yutoppgortmp/relay_service.go:124-138 | deregistering a pubsub leaves every other registered pubsub alone iff, as written, its name is free or bound to itself; under R3 always |
| Relay.DeregistrationTouchesNoOther | xaionaro-go-rtmp/yutoppgortmp/relay_service.go:124-138 | the same after any run in terms of the calls made: as written iff no other pubsub created under the name is still living |
| Relay.SuccessorSurvives | xaionaro-go-rtmp/yutoppgortmp/pubsub.go:255-258 | under R3, whatever predecessors do over any continuation, a registered pubsub stays until it is deregistered, replaced or removed itself |
| Relay.StaleDeregisterAsWritten | xaionaro-go-rtmp/yutoppgortmp/relay_service.go:131 | as written a replaced publisher's late deregistration removes its successor |
| Relay.StepKeepsInv | xaionaro-go-rtmp/yutoppgortmp/relay_service.go:28-92 | every step keeps registry and waiters consistent and never forgets a pubsub |
| Views.CloneView | xaionaro-go-rtmp/yutoppgortmp/pubsub.go:425-451 | a view has a new buffer over the same bytes and starts with the full published payload |
| Publisher.AppendTo | xaionaro-go-rtmp/yutoppgortmp/pubsub.go:202 | appending in place or into a larger array holds the old elements and then the new one |
| Publisher.Pub.AddTagAfterKeyFrame | xaionaro-go-rtmp/yutoppgortmp/pubsub.go:197-203 | nothing on a nil slice, else the cached tags gain a view of this one |
| Publisher.Pub.CutSlice | xaionaro-go-rtmp/yutoppgortmp/pubsub.go:231 | the slice is emptied and keeps its array; a nil slice stays nil unless R1 |
| Publisher.Pub.UpdateCache | xaionaro-go-rtmp/yutoppgortmp/pubsub.go:205-245 | the fields of the object hold the cache of the extended log, and no cached buffer was read |
| Publisher.Pub.InitTags | xaionaro-go-rtmp/yutoppgortmp/pubsub.go:149-176 | the replay as fresh unread views sharing no buffer with the cache or each other |
| ViewIsolation.PlayOnHeap | xaionaro-go-rtmp/yutoppgortmp/pubsub.go:149-176 | under any interleaving of publications, single hand-outs of the current tag, replays and reads, tags sharing one byte array, and the cache reusing its slice's array, read like independent copies |
| ViewIsolation.HandedIsPublished | xaionaro-go-rtmp/yutoppgortmp/pubsub.go:425-451 | whatever the script, every tag handed out is a published one less exactly what was read of it |
| ViewIsolation.ConsumeTouchesOne | xaionaro-go-rtmp/yutoppgortmp/pubsub.go:425-451 | reading from one tag takes the front of its payload and leaves all others alone |
| ViewIsolation.HandedOutTogether | xaionaro-go-rtmp/yutoppgortmp/pubsub.go:247-249 | views handed out at different times keep reading right next to each other |
| SubscriberRuns.SubmitAllFillsUp | xaionaro-go-rtmp/yutoppgortmp/pubsub.go:341-353 | with nobody pulling exactly the tags that fit are accepted and each other one starts a `Close` |
| SubscriberRuns.SoloCloseIsRun | xaionaro-go-rtmp/yutoppgortmp/pubsub.go:395-414 | the steps of one uninterrupted `Close` amount to the state change the method is proved to make |
| SubscriberRuns.BlockedCloseIsRun | xaionaro-go-rtmp/yutoppgortmp/pubsub.go:395-398 | a `Close` call that meets a held lock has cancelled the sender and done nothing else |
| SubscriberObject.Sub.Submit | xaionaro-go-rtmp/yutoppgortmp/pubsub.go:335-354 | this very tag is queued and the pure submit step followed, or, exactly when 1200 are queued, a close is started |
| PubSub.Pubsub.CloseSub | xaionaro-go-rtmp/yutoppgortmp/pubsub.go:389-415 | with the lock free everything is closed and the subscriber unregistered unless an earlier call did so; with the lock held the call cancels and waits |
| SubscriberObject.Sub.CloseBoth | xaionaro-go-rtmp/yutoppgortmp/pubsub.go:398-407 | the connection and the channel are closed, each by this call unless an earlier one did it, for any state other calls left |
| PubSub.Pubsub.Leave | xaionaro-go-rtmp/yutoppgortmp/pubsub.go:408-413 | the subscriber is marked closed, unregistered by the first call only, and the lock given back |
| SubscriberObject.Sub.SenderPass | xaionaro-go-rtmp/yutoppgortmp/pubsub.go:300-378 | ends on a cancelled context, waits on an empty queue, else the oldest tag leaves the queue and is delivered unless closed |
| Publishing.InitSub | xaionaro-go-rtmp/yutoppgortmp/pubsub.go:141-187 | only the first call submits the replay, whole and in order, as fresh unread views, each overflow starting a `Close` |
| Publishing.SubmitView | xaionaro-go-rtmp/yutoppgortmp/pubsub.go:249 | what is queued for a live tag is a fresh unread view of it |
| Publishing.VisitAll | xaionaro-go-rtmp/yutoppgortmp/pubsub.go:247-251 | in any order every subscriber is served exactly once, over buffers no other one has |
| PubSub.Publish | xaionaro-go-rtmp/yutoppgortmp/pubsub.go:191-253 | the log grows by the tag; every registered subscriber is submitted the replay of the updated cache or else the tag, with a `Close` for each overflow, as unread views over buffers that no other subscriber, nor the cache, nor the published tag has |
| PublishSteps.VisitIsServing | xaionaro-go-rtmp/yutoppgortmp/pubsub.go:247-251 | a visit of a publication in `Broadcast`, run by itself, comes to exactly what the objects promise |
| PublishSteps.PassIsSteps | xaionaro-go-rtmp/yutoppgortmp/pubsub.go:300-378 | one pass of the sender is pull, check and callback of `Broadcast` |
| PubSub.Pubsub.NewSub | xaionaro-go-rtmp/yutoppgortmp/pubsub.go:95-118 | a new subscriber is registered under a key no subscriber ever had |
| PubSub.Pubsub.RemoveSub | xaionaro-go-rtmp/yutoppgortmp/pubsub.go:120-125 | of all subscribers ever created exactly this one loses its registration |
| PubSub.Pubsub.Deregister | xaionaro-go-rtmp/yutoppgortmp/pubsub.go:49-78 | the subscribers' registry is empty, the service's registry follows the pure step, the publisher's handler is given up |
| PubSub.Publication.Close | xaionaro-go-rtmp/yutoppgortmp/pubsub.go:255-266 | after deregistering, the channel handed out before is closed and a fresh open one is installed |
| PubSub.RelayService.removePubsub | xaionaro-go-rtmp/yutoppgortmp/relay_service.go:124-138 | follows the pure removal, closing the installed channel only if the name was registered |
| PubSub.RelayService.NewPubsub | xaionaro-go-rtmp/yutoppgortmp/relay_service.go:28-50 | the old pubsub of the name is deregistered, the new one installed, each with its own channel change |
| PubSub.RelayService.GetPubsub | xaionaro-go-rtmp/yutoppgortmp/relay_service.go:52-57 | the pubsub registered under the name in the pure registry, or nil |
| PubSub.RelayService.PollPubsub | xaionaro-go-rtmp/yutoppgortmp/relay_service.go:73-90 | one pass of the loop answers as the pure waiter does, with an open channel to wait for |
| PubSub.Handler.OnPublish | xaionaro-go-rtmp/yutoppgortmp/handler.go:68-98 | which calls are refused and why; a handler closed meanwhile leaves its new pubsub registered but gets no publisher |
| PubSub.Handler.OnPlay | xaionaro-go-rtmp/yutoppgortmp/handler.go:100-122 | which calls are refused and why; a subscriber is registered exactly when accepted |
| PubSub.Handler.OnClose | xaionaro-go-rtmp/yutoppgortmp/handler.go:202-226 | the channel is closed by the first call only, which alone hands over what is to be closed |
| Merger.FillTrackMap | libav/process/server/frame_streams_merger.go:26-35 | the loops leave each ID mapped to the greatest track listing it, on exactly the union of the lists |
| Merger.AssignedPlace | libav/process/server/frame_streams_merger.go:39-64 | which index each stream gets: its greatest listing track within its band, the band's first place when unlisted, consecutive indices for other media, none exactly without tracks |
| Merger.RangeExactlyWhen | libav/process/server/frame_streams_merger.go:49-57 | a media type's indices stay below the size of its map iff more IDs are listed than the number of the last listing track |
| Merger.Pigeonhole | libav/process/server/frame_streams_merger.go:26-35 | non-empty pairwise disjoint lists hold at least as many IDs as tracks |
| Merger.RangesAreDisjoint | libav/process/server/frame_streams_merger.go:39-64 | with disciplined lists, video, audio and other media get indices in three disjoint bands, and other media injectively |
| Merger.NothingSharedExactlyWhen | libav/process/server/frame_streams_merger.go:39-64 | for any configuration, sharing an index reduced to the offsets reached through the two maps, zero included |
| Merger.SharingExactlyWhen | libav/process/server/frame_streams_merger.go:39-64 | for at most one track of each media type, no two media types share an index iff the lists are disciplined |
| Merger.SharedIndex | libav/process/server/frame_streams_merger.go:39-64 | a configuration the server accepts in which a video and an audio stream share an index: the video track lists no ID |
| Merger.SumsFit | libav/process/server/frame_streams_merger.go:49-62 | for 32-bit stream indices every assigned index fits in a 64-bit integer |
| Merger.FrameStreamsMerger.constructor | libav/process/server/frame_streams_merger.go:20-37 | both maps mean what `FillTrackMap` promises for the configuration's lists |
| Merger.FrameStreamsMerger.StreamIndexAssign | libav/process/server/frame_streams_merger.go:39-64 | at most one index, in the band of its media type when the lists are disciplined |
| Locks.WaitingClimbs | libav/process/server/server.go:355-360 | whoever is waited for wants only locks of a higher rank |
| Locks.NoWaitCycle | libav/process/server/server.go:588-593 | the wait-for graph of any number of calls is acyclic |
| Locks.DeadlockFreedom | libav/process/server/server.go:355-360 | in every reachable world with an unfinished call some call can step, and no lock has two holders |
| Locks.TogetherExactlyWhen | libav/process/server/server.go:355-360 | two critical sections of any two calls can be held at once in some reachable world iff they share no lock |
| Locks.OutputsNotExclusive | libav/process/server/server.go:297-307 | `CloseOutput` and `NewOutput` can change the output registry at the same time, under different locks; two `CloseOutput` calls cannot |
| Locks.RegistriesGuarded | libav/process/server/server.go:164-338 | any two calls on the context registry exclude each other, any two on the input registry, and on the output registry all pairs but `CloseOutput` with `NewOutput` |
| Locks.LoggerGuarded | libav/process/server/server.go:103-127 | replacing the logger excludes every fetching of it |
| Locks.LockUsers | libav/process/server/server.go:355-360 | which calls take which lock at all |
| Lifecycle.RejectedExactlyWhen | libav/process/server/server.go:397-409 | a configuration that converts is rejected iff enabled with more than one track of a media type; the quality checks never fire |
| Lifecycle.VerdictExactlyWhen | libav/process/server/server.go:397-440 | the answer to a configuration: started iff absent or well-formed without too many tracks, rejected iff well-formed with too many, a panic iff ill-formed |
| Lifecycle.StartOutcomeExactlyWhen | libav/process/server/server.go:362-440 | every answer of `StartRecoding` after every run, each with its exact condition on registries and configuration |
| Lifecycle.StartEffect | libav/process/server/server.go:379-394 | a refused start changes nothing; past the guards exactly this context is marked, with a pipeline iff started |
| Lifecycle.ContextStartedExactlyWhen | libav/process/server/server.go:362-394 | over every run a context is started iff some call found it registered and not started, with its input and output registered |
| Lifecycle.IDsNeverReused | libav/process/server/server.go:325-342 | over all runs no context, input or output ID is issued twice, and registered IDs were issued |
| Lifecycle.ContextLifecycle | libav/process/server/server.go:362-394 | in every reachable state, `Die` included: at most one start and one closing of the end channel per context, nodes set exactly by the start, at most one pipeline, and for a registered context the cancel function set exactly by the start |
| Lifecycle.EndChannelClosedExactlyWhen | libav/process/server/server.go:45-55 | over every run, a context's end channel is closed iff `CloseContext` found it registered or its pipeline ended |
| Lifecycle.DieCompletesExactlyWhen | libav/process/server/server.go:595-617 | `Die` gets through, in whatever map order, iff every registered context was started; then no context and no input is left and the outputs remain; otherwise it panics |
| Lifecycle.DiePanics | libav/process/server/server.go:595-597 | a run in which `Die` panics: one context, never started |
| Lifecycle.EndCanComeExactlyWhen | libav/process/server/server.go:560-564 | the end channel of an unregistered context is closed on some continuation iff it is closed already or its pipeline is running |
| Lifecycle.DieStrandsAContext | libav/process/server/server.go:595-599 | a run after which an unregistered context's end channel is open and nobody ever closes it: rejected configuration, then `Die` |
| Lifecycle.StrandedForever | libav/process/server/server.go:595-599 | over any continuation the end channel of such a context stays open |
| Lifecycle.RunSettles | libav/process/server/server.go:45-55 | started, ended and unregistered are final over any continuation, and so is the cancel function of a context that stays registered |
| Lifecycle.SecondStartRefused | libav/process/server/server.go:366-368 | after a start that got past the check, even one with a rejected configuration, every later start is refused |
| Lifecycle.ClosedContextIsGone | libav/process/server/server.go:174-195 | over any continuation a closed context is found by no later call |
| Lifecycle.ContextStays | libav/process/server/server.go:174-195 | over any continuation a registered context stays until it is closed or `Die` comes |
| Lifecycle.InputStays | libav/process/server/server.go:197-223 | over any continuation an input stays registered until it is closed or `Die` comes, and its ID never comes back |
| Lifecycle.OutputStays | libav/process/server/server.go:297-323 | the same for outputs, which `Die` leaves alone |
| Lifecycle.StreamEffect | libav/process/server/server.go:144-172 | opening registers exactly one ID never issued, or nothing; closing removes exactly the ID |
| Lifecycle.CrashesExactlyWhen | libav/process/server/server.go:397-398 | after any run a step crashes the process iff an ill-formed configuration is started, `Die` meets a context never started, or an unknown context is awaited |
| GrpcServer.Context.Close | libav/process/server/server.go:45-55 | closes the end channel on the first call only and reports an error on the others |
| GrpcServer.Context.Start | libav/process/server/server.go:379-409 | the context is marked, with both nodes, before the configuration is judged |
| GrpcServer.GRPCServer.NewContext | libav/process/server/server.go:325-342 | the objects follow the pure step: a fresh ID bound to a fresh context |
| GrpcServer.GRPCServer.CloseContext | libav/process/server/server.go:174-195 | the objects follow the pure step; an error exactly for an unknown ID |
| GrpcServer.GRPCServer.StartRecoding | libav/process/server/server.go:344-409 | the objects follow the pure step, with the guards in the source's order |
| GrpcServer.GRPCServer.PipelineEnds | libav/process/server/server.go:511-516 | the pipeline's deferred close follows the pure step and holds no server lock |
| GrpcServer.GRPCServer.FindContext | libav/process/server/server.go:556-558 | the context an ID was issued for, or nil |
| GrpcServer.GRPCServer.AwaitEnd | libav/process/server/server.go:546-564 | a nil context panics; otherwise the wait is over at once iff the end channel is closed |
| GrpcServer.GRPCServer.Die | libav/process/server/server.go:584-617 | the objects follow the pure step, for any order of the map, including a panic half way |
| GrpcServer.GRPCServer.NewInput | libav/process/server/server.go:144-172 | an ID is issued and registered only if the input could be opened |
| GrpcServer.GRPCServer.CloseInput | libav/process/server/server.go:197-223 | exactly this input is unregistered; an error exactly for an unknown ID |
| GrpcServer.GRPCServer.NewOutput | libav/process/server/server.go:266-295 | an ID is issued and registered only if the output could be opened |
| GrpcServer.GRPCServer.CloseOutput | libav/process/server/server.go:297-323 | exactly this output is unregistered; an error exactly for an unknown ID |
| Conversion.ConvertSlice | libav/grpc/goconv/slices.go:3-12 | every element converted, in order, or a panic as soon as one element panics |
| Conversion.CodecNamesKept | libav/grpc/goconv/encoder_config_to_thrift.go:45-60 | both directions keep the codec's name and panic exactly on codecs without one |
| Conversion.ConfigTravels | libav/grpc/goconv/encoder_config_to_thrift.go:10-137 | the message field by field: the flag, each track under its own medium in order, IDs congruent modulo 2^64, codec names, bitrates modulo 2^32, constant qualities |
| Conversion.ConfigThereAndBack | libav/grpc/goconv/encoder_config_to_thrift.go:10-137 | panics exactly on unsupported tracks; otherwise the way there and back returns the configuration without custom options and with bitrates modulo 2^32 |
| Conversion.ConfigRoundTrip | libav/grpc/goconv/encoder_config_to_thrift.go:10-137 | nothing but custom options is lost iff every constant bitrate is below 2^32; negative track IDs survive |
| Conversion.LosslessExactlyWhen | libav/grpc/goconv/encoder_config_to_thrift.go:10-137 | the way there and back returns the configuration itself iff its tracks are supported, its bitrates below 2^32 and its custom options empty |
| Conversion.MsgRoundTrip | libav/grpc/goconv/encoder_config_from_thrift.go:10-124 | panics exactly on ill-formed messages; every other one comes back with constant qualities modulo 256, hence unchanged iff they are below 256 |
| Conversion.MsgLosslessExactlyWhen | libav/grpc/goconv/encoder_config_from_thrift.go:10-124 | the way back and there returns the message itself iff it is well-formed with constant qualities below 256 |
| Conversion.LostOnTheWire | libav/grpc/goconv/encoder_config_to_thrift.go:62-71 | a bitrate of 2^32, custom options, and a constant quality of 256 do not survive the two directions |
| Conversion.IDsThereAndBack | libav/grpc/goconv/encoder_config_to_thrift.go:31 | two's-complement wrap of track IDs is undone |
| Conversion.IDsBackAndThere | libav/grpc/goconv/encoder_config_from_thrift.go:29 | likewise for every unsigned 64-bit ID |

## Left out

- PubSub.Pubsub.CloseSub: nothing comes between its steps; each step is proved for any state, and their interleavings are in `Subscriber` and `Broadcast`.
- PubSub.Publish: proved with nothing registering, unregistering or pulling meanwhile; the interleavings are in `Broadcast`, of which it is a run (`PublishSteps`).
- SubscriberObject.Sub.SenderPass: one pass of the endless sender loop, with nothing in between; the interleavings are in `Broadcast`.
- PubSub.RelayService.PollPubsub: one pass of the loop of `WaitPubsub`, which need not terminate; the loop itself is the `Waiter` of `Relay`.
- PubSub.Pubsub.Deregister: the goroutine that closes the subscribers is in `Broadcast` only, and closing the publisher's connection is reduced to handing the handler over.
- PubSub.Publication.Close: the closing half of a `Pub` is an object of its own, apart from the cache; the channel's lock is not modelled.
- GrpcServer.GRPCServer.AwaitEnd: up to the select; a wait that the client cancels and the reply sent are not modelled.
- GrpcServer.GRPCServer.StartRecoding: only guards, state changes and the outcome of the configuration; the pipeline graph is foreign code.
- Conversion.ConvertSlice: a nil slice and an empty one are the same sequence.
- IDs, subscriber keys and counters are unbounded numbers; wrap-around after 2^64 steps is not modelled.
- `Pubsub.ClosedChan` makes a new `Pub` on each call, so nothing is claimed about it.
- `Pubsubs` and `PubsubNames`: copies of the registry, one of them sorted by the library.
- `OnSetDataFrame`, `OnAudio`, `OnVideo` and the event callback: decoding and writing FLV, AMF and RTMP chunks is foreign code; a callback is an opaque step that consumes its tag.
- A tag without data makes `Publish` and `cloneView` panic; tags of the model always have data.
- GrpcServer.GRPCServer.Die: cancelling the pipelines, closing the input objects and stopping the listener are foreign code; only the registries change.
- The bodies of `GetStats` and `GetStream`: only their locks are modelled; `GetStats` of an unknown or never started context panics.
- JSON and YAML forms of the configuration, `recoder.go`, `livego`, RTMP dialling, process forking, generated gRPC code, logging and metrics.
- Data races and memory-model effects below the granularity of critical sections.
