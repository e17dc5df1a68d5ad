# Verification of the actor node, its actors and its stores

A node reads messages from the partitions of a log, hands each to the bounded mailbox of its
actor, saves actor snapshots, and commits how far each partition has been dealt with. This
project models that protocol and the data structures under it, and proves what they are for:
nothing committed was left unhandled, commits reach as far as they may, no paused actor or
partition is forgotten, timers fire in order and
on time, duplicates are filtered over an exact window, message ids are unambiguous, and an
older owner of an actor cannot overwrite a newer one.

`dafny verify dfyconfig.toml` checks everything.

## How it is built

Code that works by changing state is a class with loops and maps updated in place
(`Inflight`, `QuadHeap`, `Timer`, `Ring`, `Dedup`, `Actor`, `Node`, `BoolValue`, `Context`,
`PostgresStore`, `MongoStore`). Each method states its whole new state through a
specification function on values; the properties are proved of those functions and of every
run made of them.

| file | contents |
|---|---|
| Types.dfy, BoolValue.dfy | identifiers, options, the value that may be switched off |
| Inflight.dfy, WindowRuns.dfy | the in-flight window of a shard, and its runs |
| Schedule.dfy, QuadHeap.dfy, Timer.dfy | the ordered map, the indexed 4-ary heap that refines it, the timer |
| Dedup.dfy | ring buffer and duplicate filter |
| MessageId.dfy | preimages of message ids and the counters that feed them |
| Fencing.dfy, Stores.dfy | versions over interleaved owners, and both stores |
| Actor.dfy | one actor: mailbox, ready signal, filter, timer, snapshots |
| Node.dfy | the node's handlers as functions on a value |
| NodeBatch.dfy, NodeCode.dfy | the handlers as code, proved against those functions |
| NodeRuns.dfy | the transition system: node, actors, poller and crashes interleaved |
| NodeIndex.dfy | the two indexes of actors, and shutdown |
| NodeCommits.dfy, SnapshotNames.dfy | what commits rest on, in every run |
| Wakeups.dfy | every pause ends |
| Delivery.dfy, Coverage.dfy, CoverageSteps.dfy, CoverageDispatch.dfy, CoverageSaves.dfy, AtLeastOnce.dfy | at-least-once delivery |
| Marks.dfy | shards marked as paused and their partitions |
| Progress.dfy | draining, saving, resuming, and what handlers leave alone |
| Guards.dfy | at-least-once delivery under a check the node can make itself |
| Paths.dfy, Losses.dfy | runs from any state; what passing over an undelivered message leads to |
| Safety.dfy, Failures.dfy | which seeks, drops, messages out of turn and failing calls are safe |
| OneShard.dfy, OffsetZero.dfy, ForwardSeek.dfy, FailedPause.dfy, Backpressure.dfy | runs in which a message is lost |

## What at-least-once delivery needs

`AtLeastOnce.CommittedIsHandled` is about every run of the transition system: any number of
pauses, rewinds, recycled, stopped and restarted actors, failing saves, commits and resumes,
shutdowns and crashes, in any order. It says that the handler of every message below any
committed offset ran before a snapshot was taken that reaches it and that the store reported
saved without an error. Its hypotheses are:

* each offset has one fixed message, on the shard of its receiver, and offsets are positive
  (`FixedReceivers`);
* where an actor does not start, or a seek that answers a ready or a stopped actor fails, what
  it would have brought back has been given to the actor before (`FailsHarmlessly`); every
  other call may fail, a pause included;
* what a read position passes over, by a seek or because its shard is marked as paused, has
  been given to its actor or is held back for it (`PassesDelivered`);
* a message that reaches the dispatcher out of turn, such as one polled before a seek, which
  stays in the node's mailbox, overtakes nothing: all before it in the log is in flight or
  covered by a saved snapshot, and its actor has been given all that was sent to it before, or
  has something held back already (`StaleIsHarmless`);
* handlers return, and no actor is disabled; nothing in the code disables one.

Only this theorem and its corollaries assume anything about seeks or about the order of
messages. In the transition system the dispatcher may be given any message of the log at any
time; the read position follows the one that is next. What is proved of commits, windows,
snapshots, wake-ups, indexes and shutdown holds in all of these runs.

The third and the fourth can be met in three ways, each a theorem of its own:

* the node checks that nothing in flight is passed: before it seeks, before it drops a message
  at a shard it holds paused, and when a message comes out of turn
  (`Guards.CommittedIsHandledGuarded`);
* messages come in turn, no seek moves a position forward, and no message is dropped below the
  mark of its shard (`AtLeastOnce.CommittedIsHandledBackward`);
* messages come in turn, no seek moves a position forward and no pause is refused: then
  nothing is dropped below a mark in any run (`Marks.CommittedIsHandledUnrefused`).

The first four hypotheses are needed although the code neither checks nor guarantees them.

* **Offset 0.** An actor that has handled nothing reports offset 0 in its snapshot, so a
  message at offset 0 can be committed before it is handled. `OffsetZero.AtLeastOnceUnlessZero`
  is exact: over logs that otherwise meet the hypotheses, delivery is at least once in all
  careful runs if and only if no message has offset 0.
* **A message passed over.** `Losses.PassedIsLost` holds for any node, shard, actors and log:
  once the position is past the oldest offset in flight and that one is undelivered, its
  actor is free and the log goes on with a message for the same actor, whatever comes for
  others before it, steps without a failing call and without a seek commit past it, and no
  handler has seen it.
* **Forward seeks.** The node answers an idle actor by seeking to its oldest in-flight
  offset without comparing it to the read position. `Safety.SeekIsSafeIff` and
  `Safety.IdleSeekIsSafeIff`: in the situation above a seek is safe if and only if the offset
  was delivered. `ForwardSeek.ForwardSeeksLose` is a run from the start, with the constants
  of the code and no failing call, that gets there; up to the seek all its steps are careful
  (`ForwardSeek.OneSeekIsEnough`).
* **Refused pauses.** When its window is full the node marks the shard as paused, and leaves
  the mark when the broker refuses: messages keep coming and are dropped. `Safety.DropIsSafeIff`:
  with the shard about to resume at its mark, dropping one below the mark is safe if and only
  if it was delivered. `FailedPause.FailedPausesLose` is a run from the start in which one
  refused pause is the only failing call and no seek moves forward; up to the drop all its
  steps are careful (`FailedPause.OneDropIsEnough`).
* **Stale messages.** A seek withdraws nothing that was polled before it. `Safety.StaleIsSafeIff`:
  when all else sent to its actor before it was given to the actor, handling a message out of
  turn is safe if and only if the message it may overtake was delivered. Ordinary backpressure
  gets there. `Backpressure.BackpressureLoses` is about every capacity of mailboxes and every
  log that begins with two messages more than that for one actor: the mailbox is full at one of
  them, the actor is paused, the ready signal makes the node seek back, and the last one, still
  in the node's mailbox, is handled first; a run commits past the message that was sought, with
  no failing call and no forward seek. Up to the stale message all steps are careful
  (`Backpressure.OneStaleMessageIsEnough`), and the constants of the code with a thousand
  messages are an instance (`Backpressure.ItIsABurst`).
* **Failing calls.** A message whose actor does not start is dropped. `Failures.FailedStartIsSafeIff`:
  with a message for another actor next that the commit follows, that is safe if and only if a
  saved snapshot of an earlier instance covers it. `Failures.FailedReadyIsSafeIff`: when the
  seek that ends a pause fails, and all else was given to the actor, the node may go on if and
  only if the message that caused the pause was given to it as well.

Other places where the obvious statement is false: commits can go back once a window has been
empty (`WindowRuns.CommitsGoBackIff` says exactly when, `GuardedRun` gives the guard for whole
runs); timers that handlers keep adding can delay a ready signal without end
(`Wakeups.TimersCanDelayReady`, `Backpressure.ReadyCanBeKeptAway` in runs from the start, and
`HandlingSendsReady` counts them);
a timer is armed for another moment than its head's deadline after an add that puts the head
off, or a trigger that leaves something due (`Timers.StaysArmedIff`);
a filter with limit 0 remembers ids it no longer puts into its snapshot
(`DedupFilter.ZeroLimitForgetsInSnapshot`); a snapshot restored into a larger filter can lead
to an id being forgotten sooner (`LargerFilterCanForgetSooner`, with the exact condition in
`LargerFilterAgrees`).

Where code and documentation disagree the code is modelled: actors do not load a snapshot when
they start, and the node neither stops polling around a seek nor drops what was polled before
it, which mq/mq.go:78-83 leaves to callers.

## Model

| member | source | states |
|---|---|---|
| AtLeastOnce.CommittedIsHandled | core/node.go:202-566 | in every careful run, refused pauses included, every message below any committed offset was handled before the saved snapshot that covers it was taken |
| Guards.CommittedIsHandledGuarded | core/node.go:202-566 | the same when the node makes sure that no seek, drop or message out of turn passes an offset in flight |
| Guards.GuardIsHarmless | core/node.go:214-227 | under that check every step passes over delivered messages only, whatever order messages come in |
| AtLeastOnce.CommittedIsHandledBackward | mq/mq.go:75-99 | the same when messages come in turn, no seek moves a position forward and nothing is dropped below the mark of a paused shard |
| Marks.CommittedIsHandledUnrefused | mq/mq.go:75-99 | the same when seeks never go forward, pauses are not refused and, as the broker's contract asks of the node, nothing polled before a seek comes after it |
| Marks.UnrefusedDispatch | core/node.go:214-227 | in every run in which no pause is refused and messages come in turn, nothing is dropped below a mark |
| Marks.RunsKeepPauses | core/node.go:547-566 | in every run, whatever fails, a paused partition of a registered shard has the mark at which a later save resumes it |
| AtLeastOnce.RunsKeepInv | core/node.go:202-566 | the invariant relating positions, mailboxes, pauses, pending offsets, windows, snapshots and commits holds in every state of a careful run |
| CoverageDispatch.Dispatches | core/node.go:202-276 | dispatching the next message keeps that invariant, whether or not a pause is refused: the message ends in a mailbox, held back, or at a paused shard |
| CoverageDispatch.StaleKeeps | core/node.go:202-276 | so does any other message of the log, if all before it is in flight or covered and its actor was given what was sent to it before or has something held back |
| AtLeastOnce.DispatchKeepsInv | core/node.go:202-276 | so does every dispatch that meets the hypotheses, in turn or not, one whose actor does not start included |
| CoverageSteps.EndsPause | core/node.go:389-406 | ending a pause keeps it: the position is back at or below the first message dropped |
| CoverageSteps.Leaves | core/node.go:408-447 | a stopped actor may go: what came for it meanwhile is read again |
| AtLeastOnce.Recycles | core/node.go:302-336 | an idle actor is rewound while it has anything in flight or is paused, and only then may stop |
| CoverageSaves.CommitIsCovered | core/node.go:530-545 | a committed offset has only covered messages below it |
| CoverageSaves.Saves | core/node.go:480-528 | saving any set of enabled snapshots, completing and resuming keeps the invariant |
| Losses.PassedIsLost | core/node.go:202-276 | from any state in which the position has passed the oldest offset in flight undelivered and the log goes on for its actor, with others' messages in between, calm steps commit past it unhandled |
| Safety.SeekIsSafeIff | core/node.go:308-319 | a seek over the oldest offset in flight is followed by careful steps that handle all they commit if and only if that offset was delivered |
| Safety.IdleSeekIsSafeIff | core/node.go:302-328 | so it is for the seek that answers an idle actor |
| Safety.DropIsSafeIff | core/node.go:214-227 | a message dropped below the mark of a shard about to resume is safe to drop if and only if it was delivered |
| Safety.StaleIsSafeIff | core/node.go:202-276 | a message out of turn for the actor of an offset in flight, all else before it given to that actor, is safe to handle if and only if that offset was delivered |
| Failures.FailedStartIsSafeIff | core/node.go:247-254 | a message dropped because its actor did not start is safe to leave, with one for another actor next that the commit follows, if and only if a saved snapshot covers it |
| Failures.AloneMovesPast | core/inflight.go:84-114 | the commit follows such a message past the dropped one whenever nothing else is in flight |
| Failures.FailedReadyIsSafeIff | core/node.go:389-406 | a pause that ends without its seek is safe, all else given to the actor, if and only if the message that caused it was given to it |
| Delivery.HandledOk | core/actor.go:345-361 | each message that leaves the mailbox finds everything sent before it handled, so the offset it sets is honest |
| Delivery.InOrderConcat | core/actor.go:272-274 | the delivery order of a mailbox is preserved by what is put behind it |
| OffsetZero.AtLeastOnceUnlessZero | core/actor.go:56-56 | delivery is at least once in all careful runs if and only if no message has offset 0 |
| OffsetZero.ZeroIsLost | core/actor.go:238-247 | with a message at offset 0 there is a careful run that commits it unhandled |
| ForwardSeek.ForwardSeeksLose | core/node.go:308-319 | with the code's constants and no failing call a run from the start seeks forward and commits past an unhandled message |
| FailedPause.FailedPausesLose | core/node.go:219-227 | so does a run with one refused pause in which every seek succeeds and none goes forward |
| ForwardSeek.OneSeekIsEnough | core/node.go:308-319 | up to that seek whatever careful steps commit was handled, after it no longer |
| FailedPause.OneDropIsEnough | core/node.go:214-227 | up to the drop after a refused pause whatever careful steps commit was handled, after it no longer |
| Backpressure.BackpressureLoses | core/node.go:267-276 | for every mailbox capacity, and with every call succeeding and every seek going back, a run from the start commits past the message that found the mailbox full |
| Backpressure.OneStaleMessageIsEnough | core/node.go:389-406 | up to the stale message whatever careful steps commit was handled, after it no longer |
| Backpressure.ItIsABurst | core/actor.go:12-13 | the constants of the code with a log of 1026 messages for one actor meet what that run needs |
| Backpressure.ReadyCanBeKeptAway | core/actor.go:276-343 | runs from the start reach a paused actor that stays paused, without a ready signal, through any number of messages each followed by a due timer |
| NodeCommits.CommitCoverage | core/node.go:449-545 | in every run, with no assumption on seeks or on the order of messages, a commit is at or below everything in flight, and each smaller offset that was in flight has been released at a step since |
| NodeCommits.CommitsReachAllReleased | core/node.go:449-545 | in every run a commit passes an offset that was in flight exactly when nothing left in flight is at or below it: no commit stops short |
| NodeCommits.LeavesOnlyBacked | core/inflight.go:116-139 | an offset leaves a window only in a step that saves a snapshot kept of its actor which reaches it, or because its actor is disabled |
| NodeCommits.RunsKeepWindows | core/inflight.go:55-114 | the windows of all shards stay valid in every run |
| SnapshotNames.CommittedWasSaved | core/node.go:480-528 | for each offset below a commit a step since has saved a snapshot of its own actor that reaches it, successfully |
| SnapshotNames.SnapshotsAreNamed | core/node.go:465-469 | in every run a node keeps a snapshot under the actor id written in it |
| Wakeups.NoLostWakeUp | core/actor.go:321-329 | in every run a paused, unfinished actor has a full mailbox, remembers one, or has a ready signal queued |
| Wakeups.PausedCanMove | core/actor.go:321-343 | such an actor has a message to handle, or the node a signal to take: a pause cannot get stuck |
| Wakeups.HandlingSendsReady | core/actor.go:276-329 | while a pause lasts and no ready signal is queued, each message handled is one less in mailbox and timer, and the mailbox stays above half: no more are handled than there were and handlers add timers |
| Wakeups.TimersCanDelayReady | core/actor.go:276-343 | with one due timer added for each message, any number is handled without a ready signal |
| Wakeups.ReadyEndsPause | core/node.go:389-406 | while a pause lasts, every signal taken brings the queued ready signal one place nearer |
| Wakeups.PauseEndsWhereItBegan | core/node.go:389-406 | the ready signal ends the pause with the position at the message dropped first |
| NodeIndex.RunsKeepIndexes | core/node.go:278-300 | in every run an actor is known exactly when its shard lists it, and registered shards exist |
| NodeIndex.ShutdownShrinks | core/node.go:107-139 | after `beforeStop` the actors only become fewer, and the end is signalled once, when none is left |
| NodeIndex.RemoveKeepsIndexes | core/node.go:417-426 | removing a stopped actor, and its unregistered shard with the last one, keeps both indexes in agreement |
| NodeIndex.LastTakesShard | core/node.go:417-426 | a shard goes if and only if it is unregistered and the actor removed was its last |
| Progress.StopLeads | core/actor.go:178-193 | stopping an actor is a run of the transition system: the stop, each message of the mailbox through the handler, then the last snapshot and the stopped signal |
| Progress.SaveTouchesOnly | core/node.go:480-528 | a save disables the saved snapshots, stores exactly those, and leaves all other actors and shards as they were |
| Progress.SaveCommitsAll | core/node.go:480-545 | a save that reaches everything in flight leaves nothing in flight and commits one past the largest offset seen |
| Progress.ResumesIff | core/node.go:547-566 | a marked shard reads on, from its mark, if and only if commit, seek and resumption succeed; otherwise the mark stays |
| Progress.CommitsIff | core/node.go:530-545 | a commit is counted if and only if the window advanced and the call succeeded, and a failed one stops the release |
| Progress.ReadsOnFromCommit | core/node.go:347-354 | a subscribed partition is read from its last commit, or from its start without one |
| Progress.DispatchTouchesOnly | core/node.go:202-276 | a dispatch leaves all other actors, shards and partitions as they were |
| Progress.DeadLetterCompletes | core/node.go:229-245 | a message for a disabled actor is not in flight afterwards, and is committed when alone |
| Progress.RecycleSavesFirst | core/node.go:321-336 | the batch is saved before an idle actor with something to save is told to stop, and no other actor is told |
| Progress.RecycleSeeksOldest | core/node.go:302-319 | an idle actor is read again from its oldest offset in flight, or from its pause, and is not stopped |
| Progress.LastIsSaved | core/node.go:408-426 | the last snapshot of a stopped actor is stored before it leaves |
| Progress.StartShardKeeps | core/node.go:347-354 | a shard that is there keeps its actors, window and mark |
| NodeCode.Node.Dispatcher | core/node.go:202-276 | the handler does to the maps what the model says, on every branch |
| NodeCode.Node.StartActor | core/node.go:278-300 | a started actor enters both indexes, a failed start changes nothing |
| NodeCode.Node.RecycleActor | core/node.go:302-336 | seek to the oldest in-flight offset, else to the pause, else save and stop |
| NodeCode.Node.StartShard | core/node.go:347-354 | registers, and adds an empty shard if there is none |
| NodeCode.Node.StopShard | core/node.go:356-367 | tells every actor of the shard to stop |
| NodeCode.Node.ReceiveReady | core/node.go:389-406 | the pause ends and its offset is sought |
| NodeCode.Node.ReceiveSnapshot | core/node.go:373-379 | the newest snapshot replaces the last |
| NodeCode.Node.ReceiveStopped | core/node.go:408-447 | save, leave both indexes, then end or seek what is pending |
| NodeCode.Node.Snapshot | core/node.go:449-478 | one saved snapshot is disabled and its shard completed and resumed |
| NodeCode.Node.EnabledSnapshots | core/node.go:480-489 | the snapshots offered to the store are exactly the enabled ones, in whatever order the map is walked |
| NodeCode.Node.CollectCompleted | core/node.go:496-517 | the reported snapshots still enabled are disabled, and their completions filed shard by shard |
| NodeCode.Node.ReleaseAll | core/node.go:518-527 | each listed shard is completed and resumed, in any order, the others untouched |
| NodeCode.Node.SnapshotBatch | core/node.go:480-528 | the whole batch has the order-free effect of the model |
| NodeCode.Node.CompleteOffset | core/node.go:530-545 | commits the window's next offset when it advanced; a failed commit is the only error |
| NodeCode.Node.ResumeOffset | core/node.go:547-566 | seek, resume, and only then unpause |
| NodeCode.Node.BeforeStop | core/node.go:107-123 | the first call stops all actors of all shards and may signal the end, later ones do nothing |
| NodeBatch.BatchIsSaved | core/node.go:480-528 | disabling, collecting and releasing shard by shard is saving the batch at once |
| NodeBatch.OneIsSaved | core/node.go:449-478 | saving one snapshot is saving the batch of that one |
| NodeBatch.LeastIs | core/inflight.go:75-82 | what `GetMinOffset` returns is the least offset in the actor's list |
| BoolValues.BoolValue.Enable | structs/bool_value.go:22-28 | the first value wins |
| BoolValues.BoolValue.UpdateEnable | structs/bool_value.go:30-33 | the new value wins |
| BoolValues.BoolValue.Disable | structs/bool_value.go:35-37 | nothing is left to see |
| BoolValues.FirstSinceDisableWins | structs/bool_value.go:22-28 | after any calls ending in `Enable`s since the last `Disable`, the value is the first given since |
| BoolValues.UpdateStandsUntilDisabled | structs/bool_value.go:30-33 | an update stands against every later `Enable` |
| InflightWindow.Inflight.IsFull | core/inflight.go:42-53 | tells whether a new offset would exceed the window |
| InflightWindow.Inflight.AddOffset | core/inflight.go:55-73 | enters an offset into both indexes |
| InflightWindow.Inflight.GetMinOffset | core/inflight.go:75-82 | the least in-flight offset of an actor, if it has one; no empty list is ever minimised |
| InflightWindow.Inflight.Complete | core/inflight.go:84-114 | the loop computes `AfterComplete` of the furthest offset per actor |
| InflightWindow.Inflight.Remove | core/inflight.go:116-139 | drops the leading offsets at or below the limit, and only those, from both indexes |
| InflightWindow.Inflight.ResetMinOffset | core/inflight.go:141-154 | the minimum of what is left, or -1 |
| InflightWindow.ListsPartitionWindow | core/inflight.go:12-18 | the per-actor lists are the disjoint parts of the in-flight offsets |
| InflightWindow.CompleteKeepsValid | core/inflight.go:84-114 | completing keeps both indexes in agreement and the ends right |
| InflightWindow.NextOffsetIsSafe | core/inflight.go:84-114 | the next offset is at or below everything in flight and at most one past the largest seen |
| InflightWindow.NextOffsetIsTight | core/inflight.go:84-114 | no larger offset up to one past the largest seen would be at or below everything in flight |
| InflightWindow.AdvancesIff | core/inflight.go:84-114 | there is a commit if and only if the first offset in flight left and everything left lies beyond it |
| InflightWindow.EndsAfterComplete | core/inflight.go:84-114 | the first offset is kept while in flight, else the least left takes its place; the largest seen is kept until the window is empty |
| InflightWindow.AllReachedCommitsAll | core/inflight.go:94-103 | when everything in flight is reached the window is empty and the commit one past the largest seen |
| InflightWindow.FullIffTooWide | core/inflight.go:42-53 | a window is full for a new offset if and only if adding it would bring the span to the limit |
| InflightWindow.OnlyReachedLeave | core/inflight.go:116-139 | only offsets reached for their own actor leave |
| InflightWindow.CompleteIgnoresPermutation | core/inflight.go:84-114 | permuting the list changes neither the window nor the result |
| InflightWindow.CompleteIgnoresOrder | core/inflight.go:84-114 | nor does repeating completions |
| InflightWindow.RemoveAfterRemovals | core/inflight.go:88-93 | removing one more completion after a batch is removing the extended batch |
| WindowRuns.RunsStayValid | core/inflight.go:55-154 | every run keeps the indexes in agreement, with only added offsets in flight |
| WindowRuns.CommitCoverage | core/inflight.go:84-139 | every `Add` below a committed offset was followed by a completion of its actor that reached it |
| WindowRuns.CommitReachesAllReleased | core/inflight.go:84-114 | an offset added since the window was last empty is below a commit if and only if it is below everything left in flight |
| WindowRuns.GuardedRun | core/inflight.go:42-114 | with guarded adds `minOffset` is exact, the span is bounded and commits strictly increase |
| WindowRuns.CommitsGoBackIff | core/inflight.go:55-114 | after the window has emptied, adding and completing an offset keeps the commits increasing if and only if it is not below the last committed offset |
| WindowRuns.AscendingCutIsExact | core/inflight.go:116-139 | with ascending lists exactly the offsets at or below the reach leave |
| WindowRuns.AscendingAddsKeepListsAscending | core/inflight.go:55-73 | ascending adds keep the lists ascending |
| QuadHeaps.QuadHeap.Insert | structs/quadheap.go:44-60 | a new key arrives last; a known one changes nothing; sequences never wrap |
| QuadHeaps.QuadHeap.Peek | structs/quadheap.go:62-68 | the least deadline, ties to the earliest arrival |
| QuadHeaps.QuadHeap.Pop | structs/quadheap.go:70-76 | removes and returns that item |
| QuadHeaps.QuadHeap.Update | structs/quadheap.go:78-89 | replaces an entry in its arrival rank |
| QuadHeaps.QuadHeap.Upsert | structs/quadheap.go:91-98 | updates or inserts |
| QuadHeaps.QuadHeap.Remove | structs/quadheap.go:100-107 | removes by key |
| QuadHeaps.QuadHeap.SiftUp | structs/quadheap.go:120-129 | restores heap order, keeping index and entries |
| QuadHeaps.QuadHeap.SiftDown | structs/quadheap.go:131-146 | restores heap order, keeping index and entries |
| QuadHeaps.QuadHeap.LeastOfFamily | structs/quadheap.go:133-140 | the least among an entry and its up to four children |
| QuadHeaps.QuadHeap.Fix | structs/quadheap.go:148-154 | restores heap order around one changed entry |
| QuadHeaps.QuadHeap.RemoveAt | structs/quadheap.go:156-174 | takes out any position, filling it from the last |
| QuadHeaps.QuadHeap.RenumberSequences | structs/quadheap.go:176-188 | leaves the arrivals as they are and the counter at the length |
| QuadHeaps.RenumberingIsIsomorphic | structs/quadheap.go:176-188 | new sequences are in the order of the old ones, from 0 to length - 1 |
| QuadHeaps.RootIsLeast | structs/quadheap.go:62-68 | in heap order no entry is less than the root |
| QuadHeaps.RootIsEarliest | structs/quadheap.go:62-68 | the root is the earliest item of the ordered map |
| QuadHeaps.AroundIsUpOrDown | structs/quadheap.go:148-154 | after a change one direction of sifting suffices |
| Schedule.DrainIsPermutation | structs/quadheap.go:70-76 | popping until empty returns each item once |
| Schedule.DrainIsSorted | structs/quadheap.go:109-112 | in order of deadline |
| Schedule.DrainIsStable | structs/quadheap.go:109-112 | with ties in arrival order |
| Schedule.RemovalKeepsTies | structs/quadheap.go:156-174 | removing an entry reorders no tie |
| Schedule.UpsertReplaces | structs/quadheap.go:91-98 | an upsert leaves exactly the given item under its key, at its old place or else last, and every other item in place |
| Schedule.UpsertLeavesOthers | structs/quadheap.go:91-98 | other keys hold what they held |
| Schedule.InsertOrUpdate | structs/quadheap.go:44-98 | an insertion is an upsert of an unknown key and leaves a known one alone, an update the other way round |
| Schedule.RemoveForgets | structs/quadheap.go:100-107 | a removal forgets its key and no other |
| Timers.TimerNeverLate | core/timer.go:29-79 | over every run of adds, deletions and triggers a pending item is armed for no later than its deadline, or one second after the last full mailbox |
| Timers.StaysArmedIff | core/timer.go:29-79 | from a clock armed for the head, an operation leaves it so if and only if it neither puts the head off nor leaves a due item behind |
| Timers.TimerIsExact | core/timer.go:29-79 | in every run without those two the clock is armed for exactly the head's deadline |
| Timers.RetryStands | core/timer.go:29-70 | after a full mailbox the clock stays set for a second later until something is added before the head, the head is deleted, or it fires |
| Timers.StoppedIffEmpty | core/timer.go:72-79 | in every run the clock is stopped if and only if nothing is pending |
| Timers.AddedStaysPending | core/timer.go:29-38 | in every run an added item stays pending, with the value and deadline added last, until it is due, deleted or added again |
| Timers.DueIsPrefix | core/actor.go:281-287 | the due items are a prefix of the draining order |
| Timers.Timer.Add | core/timer.go:29-38 | upserts and re-arms unless the head was not later |
| Timers.Timer.Del | core/timer.go:44-53 | removes and re-arms if it was the head |
| Timers.Timer.Calibration | core/timer.go:72-79 | armed for the head, or stopped |
| Timers.Timer.RetryAfter | core/timer.go:65-70 | armed after the delay, at least a second |
| ActorModel.TriggerConserves | core/actor.go:276-299 | moved and left items are the old heap in order; nothing undue moves, a due item stays only if the mailbox is full |
| ActorModel.TriggerAppends | core/actor.go:276-299 | a trigger leaves the mailbox in front and puts behind it the due timers in order, as many as fit |
| ActorModel.Actor.HandleTimerTrigger | core/actor.go:276-299 | moves the due items that fit to the mailbox, in order, and re-arms; a stopping actor moves nothing |
| ActorModel.Actor.MoveDue | core/actor.go:281-295 | the trigger loop moves exactly that prefix |
| ActorModel.Actor.Handle | core/actor.go:321-343 | the ready signal, the full mark and the dispatch by type |
| ActorModel.Actor.HandleNetwork | core/actor.go:345-361 | duplicates and unknown commands leave offset and filter alone |
| ActorModel.RunsAreAccepted | core/actor.go:345-361 | over any messages, handlers run for exactly the ids the filter accepts |
| ActorModel.RunsAgainOnlyAfterEviction | core/actor.go:345-361 | a handler runs again for an id only after at least L newer acceptances |
| ActorModel.EveryKnownMessageRan | core/actor.go:345-361 | every message of a known command had a handler run under its id |
| ActorModel.RunSetsOffset | core/actor.go:345-361 | a message that runs no handler leaves offset, filter and runs alone, one that does sets its own offset |
| ActorModel.OffsetIsOfLastRun | core/actor.go:345-361 | over any messages the offset is that of the last one a handler ran for |
| ActorModel.RepeatsChangeNothing | core/actor.go:345-348 | redelivered messages whose ids are remembered move nothing, the offset not back |
| ActorModel.DrainedHandlesAll | core/actor.go:178-187 | draining leaves the offset, filter and history that handling every message of the mailbox in order leaves |
| ActorModel.TimerIsPending | core/actor.go:301-319 | an added timer is pending with its command under its key, in place of one added under that key before |
| Delivery.LastSnapshotHasAll | core/actor.go:178-193 | the last snapshot of a stopping actor has every message of its mailbox handled, and the stopped signal follows it |
| ActorModel.Actor.TakeStop | core/actor.go:178-193 | drains the mailbox, then sends the last snapshot before the stopped signal |
| ActorModel.Actor.AddTimer | core/actor.go:301-319 | the timer gains the item, and nothing else of the actor changes |
| ActorModel.Ensured | core/actor.go:96-103 | both capacities are positive afterwards, and usable ones are kept |
| DedupFilter.WindowIsNewestAccepted | core/dedup.go:17-32 | the filter remembers exactly the last L accepted ids, oldest first |
| DedupFilter.AcceptedAgainOnlyAfterEviction | core/dedup.go:17-36 | an id is accepted again only after at least L newer acceptances |
| DedupFilter.SnapshotRoundTrip | core/dedup.go:43-52 | restoring saved ids loses and reorders nothing that fits |
| DedupFilter.RestoreKeepsNewest | core/dedup.go:47-52 | a smaller filter keeps exactly the newest ids |
| DedupFilter.LargerFilterAgrees | core/dedup.go:47-52 | a larger filter has the same window later on if and only if all ids fit the old one |
| DedupFilter.LargerFilterCanForgetSooner | core/dedup.go:47-52 | a larger filter can forget an id the old one still knows |
| DedupFilter.ZeroLimitForgetsInSnapshot | core/dedup.go:10-15 | with limit 0 the set grows and the snapshot stays empty |
| DedupFilter.Dedup.Add | core/dedup.go:17-32 | accepts a new id, evicting the oldest when full |
| DedupFilter.Dedup.Has | core/dedup.go:34-36 | answers for exactly the remembered ids |
| DedupFilter.Dedup.Restore | core/dedup.go:47-52 | starts over with the given ids |
| DedupFilter.Ring.Push | structs/ring.go:49-66 | appends, evicting the oldest when full |
| DedupFilter.Ring.Pop | structs/ring.go:76-94 | removes the oldest |
| DedupFilter.Ring.At | structs/ring.go:96-102 | the value at a distance from the oldest |
| DedupFilter.Ring.Values | structs/ring.go:104-114 | all values, oldest first |
| MessageIds.PreimageReadsBack | core/message_id.go:23-44 | the four parts can be read back from the bytes hashed |
| MessageIds.PreimageInjective | core/message_id.go:23-44 | equal bytes mean equal parts |
| MessageIds.PrefixesAreNeeded | core/message_id.go:33-38 | without length prefixes two requests would share their bytes |
| MessageIds.UvarintDigits | core/message_id.go:33-44 | each byte is the base-128 digit of its place with the high bit on all but the last, and none is spent on leading zeros |
| MessageIds.TenBytesSuffice | core/message_id.go:33-44 | the ten-byte buffer holds every 64-bit value |
| MessageIds.GenerateMessageID | core/message_id.go:23-31 | the id is the digest of that preimage |
| MessageIds.SentPreimagesClashIff | core/context.go:87-97 | sends of any two handlers share their bytes if and only if message handled, sender, receiver and 64-bit count agree |
| MessageIds.SentPreimagesClashOnlyOnWrap | core/context.go:87-97 | two sends of one handler share their bytes exactly when a 64-bit counter has come round |
| MessageIds.SentPreimagesDistinct | core/context.go:87-97 | without a wrap they never do |
| MessageIds.Context.NextSequence | core/context.go:87-91 | the number is how often the receiver was sent to before, as 64 bits |
| MessageIds.Context.GenerateMessageId | core/context.go:93-97 | the id depends on the parent, the actor and the earlier sends only, so a replay repeats it |
| MessageIds.TimerPreimagesDistinct | core/actor.go:301-302 | timer ids differ with actor, key or deadline, negative deadlines included |
| MessageIds.TimerClashesWithSendIff | core/actor.go:301-302 | a timer's bytes are those of a sent message if and only if the actor sends to itself while handling a message named like the key, as often before as the deadline says |
| Fencing.VersionsNeverDecrease | storage/postgres.go:119-157 | over every interleaving of owners the version of a row never decreases |
| Fencing.LoadsStrictlyIncrease | storage/postgres.go:228-264 | successive loads return strictly increasing versions |
| Fencing.OwnerIsAdmitted | storage/postgres.go:119-157 | from a load until the next one exactly the snapshots of at least the version handed out are let through, however often the owner saves |
| Fencing.UnversionedIsAdmitted | storage/mongo.go:90-126 | a first snapshot and one for a row without a version are let through |
| Fencing.StaleSaveIsRefused | storage/mongo.go:90-126 | a save older than a load changes nothing of that actor and is not reported |
| Fencing.ReportedIsDurable | storage/storage.go:29-34 | a reported id names a row that holds its input, and over every later interleaving its version is never again below that |
| Fencing.OlderThanReportedIsRefused | storage/postgres.go:180-227 | a later save with only older snapshots of that actor neither changes the row nor reports it |
| Fencing.RowRoundTrip | storage/storage.go:45-71 | a saved snapshot is what the row gives back |
| Fencing.ValidateBatch | storage/storage.go:73-85 | accepts exactly the batches of acceptable snapshots of distinct actors |
| Stores.ApplyAllIsSaveStep | storage/postgres.go:180-227 | an error-free batch is a fenced step that reports only rows set to their input |
| Stores.AdmittedExactly | storage/postgres.go:180-227 | an input is reported exactly when the fence lets it through |
| Stores.RefusedExactly | storage/postgres.go:215-226 | the stale ids are exactly those the fence refuses |
| Stores.SplitInOrder | storage/postgres.go:203-226 | both lists name their rows in the order of the batch |
| Stores.WrittenIsSaveStep | storage/mongo.go:128-171 | so is a bulk with failing writes |
| Stores.PostgresStore.SaveOne | storage/postgres.go:119-157 | one fenced write: stored, stale, invalid or failed |
| Stores.PostgresStore.SaveBatch | storage/postgres.go:159-227 | splits a batch exactly into stored and stale rows when its result is read, and reports what was read and a failure otherwise |
| Stores.PostgresStore.Load | storage/postgres.go:228-264 | moves the version on and returns the row |
| Stores.MongoStore.SaveOne | storage/mongo.go:90-126 | one fenced upsert |
| Stores.MongoStore.SaveBatch | storage/mongo.go:128-171 | reports exactly the rows written, none unless confirmed; no error if and only if all were, stale if and only if only the fence stood in the way, with the ids concerned |
| Stores.MongoStore.Save | storage/mongo.go:75-87 | the same ids and the same absence of an error for a batch of any size |
| Stores.MongoStore.Load | storage/mongo.go:173-194 | moves the version on, from a missing one as well |
| Stores.MongoStore.SuccessfulActorIDs | storage/mongo.go:227-250 | the inputs no write error names, or none when nothing is confirmed |
| Stores.MongoStore.ClassifyBulkError | storage/mongo.go:196-225 | stale exactly when every write error is a duplicate key and the concern was confirmed; the stale and the failed ids are those of the errors, "?" for an index outside the batch |

## Left out

- NodeCode.Node.Dispatcher: for a disabled actor takes for granted that an offset in flight has the receiver the message names; for others it says only that the windows stay valid if so. `NodeCommits.RunsKeepWindows` proves it of every run over such a log, and nothing disables an actor.
- Safety.SeekIsSafeIff: the half that a passed-over message is lost is for the oldest offset in flight, with the other messages passed over delivered; whether a later redelivery repairs other cases depends on the log.
- AtLeastOnce.CommittedIsHandled: says that the handler ran, not that its effect is in the state stored; actors do not load their state when they start, so after a failed save at a stop the next instance begins without the earlier effects.
- Safety.StaleIsSafeIff: the half that the overtaken message is lost is for one with nothing of other actors in flight before it; otherwise whether the commit passes it depends on when those are released.
- Failures.FailedReadyIsSafeIff: a failing seek after a stopped actor has the same condition in `FailsHarmlessly` but no such equivalence of its own.
- Fencing.ValidateBatch: does not test UTF-8 validity of ids; characters are Unicode scalar values, for which it always holds.
- Timers.Timer.Calibration: durations are whole seconds and do not overflow, and the global time offset is fixed.
- `NodeActor` and the pause, snapshot and pending values inside it, and those of a shard, are values in the node's maps: aliasing between a handler's pointer and the map is not modelled. `BoolValue` is proved separately.
- The mailbox of the node is unbounded and keeps the signals of each actor in the order sent; a full one only delays actors.
- Offsets and versions are mathematical integers; only sequence numbers and message counters have their 64-bit bounds.
- Heap deadlines are integers; other ordered types, NaN included, are not modelled.
- Methods of `Ring` on a nil receiver, and `Timer.Upsert` and `Timer.All`, which nothing calls; no actor calls `Timer.Del`, which is proved on the timer alone.
- `Actor.version` is never set by the code, and the advance that would make the alive clock send a snapshot is never raised.
- The order of rows `RETURNING` gives back is taken to be that of the batch; errors carry actor ids, not wrapped causes.
- JSON columns, schema creation and identifier quoting.
- The digest, the base64 form of ids, random ids and the hash that places actors on shards are arbitrary functions.
- `NewMessage` puts the actor's id into the type of the sender and its type into the id; no property here reads them.
- The Kafka client, the poll loop, contexts, recovery from panics and logging; polling is a step that makes more of the log available.
- Handler state, timer handlers, `Factory`, `Handlers`, `Status` and the generic containers.
