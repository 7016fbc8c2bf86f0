# Kanban server: the realtime spine, ordered lists, derived data

A Dafny model of the parts of the Kanban server whose correctness is hardest to see by
reading one function at a time, with proofs about them.

**The realtime spine.** A mutation commits an `event_log` row; dispatchers publish rows to
JetStream, await the ack and mark them; a per-pod registry pumps one consumer per object into a
bounded broadcast; a subscriber joins, reads `MAX(nats_seq)`, reads a snapshot in several
statements, cuts over and filters the live tail. `Spine` is this as a labelled transition system in
which every choice of the environment (failures, crashes, lost acks, forgotten message ids,
redelivery, the order of everything) is a label, so a run is a list of labels and a theorem about
runs is a theorem about all interleavings. `SpineInvariant` holds the invariant, `SpineTheorems`,
`Snapshot`, `OutboxSafety` and `Resume` what it says, with concrete runs in `SnapshotRuns`;
`Broadcast` is the ring between pump and subscriber, shown to be what `Spine` calls a subscriber's
inbox. The imperative parts of the source are methods and classes proved against the same
functions: `Cutover` (the duplicate filter and tracker), `Drain` and `Shutdown` (the dispatcher's
pass and loop, shown to be runs of `Spine`), `BoardStream` (the stream handler), `Registry` (the
refcounted channel map), `AggregateStream` (the forwarders of an aggregated board).

**Ordered lists.** `Positions` relates a position column to the list it stands for; `Columns` and
`SourceBoards` are the two tables that keep such lists, by range shifts and by renumbering.

**Derived data.** `SearchIndex` (documents follow the cards table), `Ids` (printing and parsing),
`Keyset` (paged scans), `Migrations` (ledger, backfills, crashes), `TupleStore` (deleting while
paging), `Revisions` (counters and event rows in one transaction).

What the environment is assumed to do: statements are READ COMMITTED and a row-locking UPDATE holds
its lock to the end of the transaction; stream sequence numbers only grow; a publish whose message
id is still in the duplicate window returns the original sequence; a consumer's first deliveries
come in stream order, and old messages may be delivered again; event and card ids are never reused.
`ORDER BY id` and `id > $1` compare ids byte by byte, as under the C collation. Placements in
`Snapshot` are database state with any content before the first row of the log; a row that changes
them commits with that change, and is routed to whatever board its writer named. A card's column
exists and a column never changes boards, as the keys of the tables guarantee; removing a column
removes its cards. The ULID text form is that of the ULID specification (Crockford base 32, 26
characters, no aliases for I, L, O and U); the UUID form is that of section 4 of RFC 9562. The
permission gateway pages by tuple id, treats an empty object or relation as no filter, and gives no
continuation token with an empty page.

## Where the code and its comments disagree

The model follows the code. Each of these is settled by a lemma named in the table.

- "Rows with `nats_seq IS NOT NULL` are never re-published" (outbox.rs:23-24) holds over all runs
  exactly when at most one dispatcher runs: `MarkedIsFinalIffLone`.
- The board stream is to show every card of its board, in the snapshot or by an event. `move_card` lets
  a card change boards within a project but writes one row, for the board it was read on
  (cards.rs:1304-1464), so a subscriber of the board it enters can miss it:
  `CrossBoardMoveIsMissed`, and `ThereAndBackIsMissed` for a card it was shown before. Run by run and
  card by card the exact condition is `MissedIff`; for such a move it is `LastMovedIsMissedIff`: the
  move names another board and no fetch of the card ran after it. For cards that leave it is
  `LingersIff`; `delete_card` reads the board before its transaction, so a move or transfer in between
  makes the card linger: `DeletedOnceLingersIff`, `StrayDeletionLingers`,
  `TransferredThenDeletedLingers`.
- A resume is said to be served from retained history (boards.rs:488-490); that is so exactly when
  every message past the token has a copy that comes above everything emitted before it, without
  redelivery exactly when one was sent after the join: `ResumeCompleteIff`, `SingleCopies`,
  `ResumeCanLose`.
- Two first subscribers of one object may both open a consumer; the second replaces the first's
  entry: `ExactIffNoOverwrite`, `ReplacedPumpLeaks`. A pump is then aborted under a live handle exactly
  when a drop removes an entry after the drop of a handle of a pump it replaced:
  `LivePumpAbortedIff`, `OverlapAbortsLivePump`.
- The final drain is said to flush whatever is pending (outbox.rs:318); it makes one pass:
  `FinalDrainFlushesIff`.
- `MoveColumnRequest` promises gap-filled positions (boards.proto:164); they are kept exactly when
  the target is at most the number of columns: `MoveNumbered`.
- A migration is said to run exactly once (system_migrations/mod.rs:4-6); it does exactly when no boot
  ends between the start of its body and its ledger insert: `ExactlyOnceIff`, `BodyRunsAgain`.
- A failed or interrupted index update after the mark is made up for only by another update
  of the same card (outbox.rs:465-488), and so is a change that no event follows: `ConvergesIff`,
  `AgreesOnceAnnounced`. UpdateCard commits its event in a later transaction (cards.rs:1190-1253), which
  is enough once it commits. Removing a column (boards.rs:1435-1448) and deleting a label
  (labels.rs:365-371) change cards by cascade without an event of them.
- The aggregate stream drops an event that arrives behind a larger sequence of another board, and
  loses a lagging board without an error: `MergeEmitsMaxima`, `EverythingArrivesIff`,
  `LagLosesSilently`.
- `is_ulid` is described as telling canonical ULIDs (id.rs:68); it accepts any 26 base-32 digits, and
  such a text is canonical under the condition of `ReprintIsSameIff`.
- A stored id that is not canonical makes a paged backfill skip or loop: `VisitsAllIff`,
  `OverflowingIdLoops`.

## Model

| member | source | states |
|---|---|---|
| Cutover.BoundedSet.constructor | src/realtime/cutover.rs:49-55 | a new filter has admitted nothing and is consistent |
| Cutover.BoundedSet.Insert | src/realtime/cutover.rs:60-72 | refuses an id exactly when it is among the last max(capacity, 1) admitted ids; queue and set keep holding the same distinct ids, which are those last admitted ones |
| Cutover.CutoverTracker.constructor | src/realtime/cutover.rs:133-139 | a new tracker stands for the empty reference tracker |
| Cutover.CutoverTracker.ObserveReplay | src/realtime/cutover.rs:152-158 | drops the event if its id is in the filter and otherwise emits it and remembers it, as the reference tracker does, which remembers every id ever admitted |
| Cutover.CutoverTracker.CutoverToLive | src/realtime/cutover.rs:169-180 | follows the reference tracker; a second cutover changes nothing |
| Cutover.CutoverTracker.ObserveLive | src/realtime/cutover.rs:190-210 | follows the reference tracker; phase guard first, then sequence guard, then duplicate filter |
| Cutover.AdmittedAreEmitted | src/realtime/cutover.rs:152-210 | over every run, the filter's history is the ids emitted, in order |
| Cutover.RepeatsAreSpaced | src/realtime/cutover.rs:60-210 | over every call sequence, between two emissions of one id lie at least max(capacity, 1) emissions of other ids, across replay and live |
| Cutover.LiveIsMonotone | src/realtime/cutover.rs:169-210 | over every call sequence, live emissions strictly increase above the first cutover value, nothing is emitted live before it, and later cutovers do not count |
| Cutover.ReplayEmittedIff | src/realtime/cutover.rs:152-158 | after any calls a replayed event is emitted if and only if its id is not among the last max(capacity, 1) ids emitted |
| Cutover.LiveEmittedIff | src/realtime/cutover.rs:190-210 | after any calls with a cutover, a live event is emitted if and only if its sequence is above the first cutover and above everything emitted live, and its id is not among the last max(capacity, 1) ids emitted |
| Cutover.SilentCalls | src/realtime/cutover.rs:169-210 | before any cutover nothing is emitted live, and cutting over emits nothing |
| Cutover.MergeEmitsMaxima | src/services/aggregated_boards.rs:1223-1298 | for every merge with distinct event ids, what is emitted is exactly the left-to-right maxima above the cutover, so nothing is dropped if and only if the merge is in sequence order |
| Cutover.AggregateMergeCanDrop | src/services/aggregated_boards.rs:1287-1298 | two events of two boards in the unlucky order: the older one is never emitted |
| SpineInvariant.StepKeepsInv | src/realtime/outbox.rs:343-503 | every step of writers, dispatchers, broker, pump and handler keeps the invariant |
| SpineInvariant.ReachableInv | src/realtime/outbox.rs:343-503 | the invariant of the whole system holds in every reachable state |
| Spine.RouteByColumns | src/realtime/outbox.rs:366-387 | a row goes to its aggregated board, else to its board, else to its project, and nowhere only when all three columns are null |
| SpineTheorems.NothingIsLost | src/services/boards.rs:416-578 | duplicated but never lost: in every interleaving each row whose aggregated board is this one, or that has no aggregated board and this as its board, was committed before the `MAX(nats_seq)` read and every snapshot statement sees it, or has been emitted live, or no copy of it has reached the handler yet |
| SpineTheorems.WithheldIsInSnapshot | src/services/boards.rs:425-578 | every envelope a fresh subscriber withheld belongs to a row every snapshot statement saw, or to one already emitted |
| SpineTheorems.CaughtUp | src/services/boards.rs:425-641 | once pump and handler have caught up, every published row with these columns committed after the `MAX(nats_seq)` read has been emitted |
| SpineTheorems.EmittedIsOwn | src/realtime/outbox.rs:366-387 | in every run a subscriber is sent only rows with these columns, so a row with only a project id reaches no board |
| SpineTheorems.CutIs | src/services/boards.rs:425-436 | an open stream has cut over at its token, or, if fresh, at the largest mark there was on a row of the board and tenant when it read `MAX(nats_seq)` |
| SpineTheorems.AllReplaysEmitted | src/services/boards.rs:526-562 | a snapshot with distinct event ids is emitted whole and in order, however small the filter |
| SpineTheorems.TakenIsHandled | src/realtime/cutover.rs:190-210 | of an inbox whose first deliveries are in order, everything taken is emitted unless at or below the cutover or older than the join, whatever the filter's capacity |
| SpineTheorems.StreamIsMonotone | src/services/boards.rs:621-641 | emitted sequences strictly increase above the cutover and repeats of an id are far apart, whatever is redelivered |
| SpineTheorems.NoHole | src/services/boards.rs:621-641 | while the stream is open, every message on the subject above the cutover, since the join and up to the last emitted sequence, has been emitted |
| Broadcast.BroadcastChannel.Send | src/realtime/registry.rs:267 | one more value is sent; the ring's slots hold the end of everything sent, older values being overwritten |
| Broadcast.BroadcastChannel.Recv | src/services/boards.rs:617-638 | reads the next value, or reports how many were overwritten and moves the receiver forward past them |
| Broadcast.GotIsPrefix | src/services/boards.rs:617-638 | over every interleaving of sends and receives, what a handler that ends at the first lag has taken is a gapless prefix of what was sent, and it has ended exactly when a receive found it more than the ring behind |
| Broadcast.ReadingOnSkips | src/services/boards.rs:633-638 | a handler that read on after a lag would skip: a concrete run on the same ring |
| Broadcast.InboxIsRing | src/services/boards.rs:587-641 | in every run of the whole system the subscriber's inbox, what it has taken and whether it lagged are those of a receiver on the overwriting ring |
| Broadcast.LagEndsTheStreamIff | src/services/boards.rs:633-638 | in every run the stream has ended with the lag error if and only if some receive found the handler more than the ring behind |
| Broadcast.RunPump | src/realtime/registry.rs:243-279 | every delivered message is acked; exactly the decodable ones are broadcast, each under its stream sequence, in order of delivery |
| Broadcast.PumpFeedsInbox | src/realtime/registry.rs:243-279 | for readable deliveries what the pump broadcasts is the envelopes the transition system puts in the inbox |
| Broadcast.WhatIsPumped | src/realtime/registry.rs:243-279 | what is broadcast is each delivery whose payload parses, once and in order, under its stream sequence, or under 0 if that cannot be read |
| Snapshot.LatestPlaces | src/services/boards.rs:440-470 | where a card is now is what the latest row about it since a view says, or where it was at that view, whatever the tables held before the log |
| Snapshot.PlacedIff | src/services/boards.rs:450-470 | a card is in a column exactly when some row put it there and none since is about it or removes the column, or it was there at first and none did |
| Snapshot.BoardOfIff | src/services/boards.rs:440-449 | a column belongs to a board exactly when some row made it so and none since made or removed it, or it did at first and none did |
| Snapshot.FetchIsReplayed | src/services/boards.rs:526-562 | in every such run each fetch of the snapshot has been emitted as a replayed event, however small the filter |
| Snapshot.EmittedIffRouted | src/services/boards.rs:416-578 | for a caught-up fresh subscriber, of the rows committed since the `MAX(nats_seq)` read exactly those routed to the board are emitted live |
| Snapshot.ShownOrLatest | src/services/boards.rs:450-470 | a card on the board that no fetch of the non-atomic snapshot found in its present column has a row about it since the read, and the latest one put it there |
| Snapshot.MissedIff | src/services/boards.rs:416-578 | in every such run, for every card on the board: the client has not heard of it since the last row about it, by the emitted event of a fetch or a row emitted live, if and only if there is a row about it since the read, the latest is not routed to the board, and no fetch of the card ran after it |
| Snapshot.LastMovedIsMissedIff | src/services/cards.rs:1304-1464 | a card whose latest row since the read is a move into a column of the board is missed if and only if move_card read it on another board and no fetch of it ran after the move |
| Snapshot.MovedInIsMissedIff | src/services/cards.rs:1304-1464 | a card moved once since the read, in from another board, is missed if and only if the move named another board and the new column was not listed after the move |
| Snapshot.TransferIsHome | src/services/cards.rs:1717-1748 | the two rows of a transfer are each routed to the board that loses or gains the card |
| Snapshot.SnapshotOrLive | src/services/boards.rs:416-578 | if the rows since the read are routed to the boards they put cards on, the client has heard of every card on the board since the last row about it: by a later fetch, or by that row emitted live |
| SnapshotRuns.CrossBoardMoveIsMissed | src/services/cards.rs:1430-1464 | from any tables, a run in which a card moved in from another board after the reads is missed |
| SnapshotRuns.ThereAndBackIsMissed | src/services/cards.rs:1430-1464 | from any tables, a run in which a card that was shown is moved to another board, which is emitted, and back into its column, which is not: it is missed |
| Snapshot.LingersIff | src/services/boards.rs:416-578 | in every such run, for every card: it is off the board although the last the client has heard has it there, if and only if some row since the read took it off for good, the last fetch or routed row by then had it there, and neither that row nor a later one that concerns the card is routed to the board, nor a later fetch of it made |
| Snapshot.NoneLinger | src/services/boards.rs:416-578 | if the rows since the read are routed to the boards they take cards and columns from, no card lingers |
| Snapshot.SomeRowSince | src/services/boards.rs:450-470 | a card that was shown and is no longer on the board was taken off by some row since the read |
| Snapshot.LeftOnceLingersIff | src/services/boards.rs:416-578 | a card taken off by the one row about it since the read lingers if and only if that row is not routed to the board and the card was fetched before |
| Snapshot.DeletedOnceLingersIff | src/services/cards.rs:1817-1853 | for a deletion: if and only if delete_card had read the card on another board, and its column was listed before |
| Snapshot.ShownOrRemoved | src/services/boards.rs:416-578 | if the rows since the read are routed to the boards they take cards and columns from, every card shown that has left was taken off by a row that was emitted live |
| SnapshotRuns.StrayDeletionLingers | src/services/cards.rs:1817-1853 | from any tables, a run in which a card deleted under another board's id stays in the subscriber's view |
| SnapshotRuns.TransferredThenDeletedLingers | src/services/cards.rs:1717-1853 | from any tables, a run in which a card the client is told of live by a transfer, and then deleted under the board it came from, stays in its view |
| OutboxSafety.StreamAndMarksAgree | src/realtime/outbox.rs:404-503 | with any number of dispatchers, crashes and failures every stored message carries a committed routable row and a row's `nats_seq` names a message carrying that row |
| OutboxSafety.OneCopyIffInsideWindow | src/realtime/outbox.rs:404-449 | the stream has at most one message per row if and only if every re-publish of a stored row carried its message id and fell inside the window |
| OutboxSafety.LoneDispatcher | src/realtime/outbox.rs:343-503 | a lone dispatcher's remaining rows are always distinct and unmarked |
| OutboxSafety.MarkedIsFinalIffLone | src/realtime/outbox.rs:23-24 | no run republishes a marked row if and only if at most one dispatcher runs |
| OutboxSafety.RaceRuns | src/realtime/outbox.rs:343-355 | with two dispatchers a concrete run republishes a marked row |
| Resume.ResumeDelivers | src/services/boards.rs:526-578 | a caught-up resumed stream has emitted every message past its token that was sent after it joined |
| Resume.EmittedIffCameAbove | src/realtime/cutover.rs:190-210 | on every open stream, whatever is redelivered, a row has been emitted live if and only if a copy of it was taken that came above the cutover and above everything emitted before it |
| Resume.ResumeCompleteIff | src/realtime/registry.rs:165-185 | whatever is redelivered, a resume is complete if and only if every message past the token has a copy that came above everything emitted before it; a copy past the token sent after the join is enough, and without redelivery it is needed |
| Resume.SingleCopies | src/realtime/registry.rs:165-185 | with one copy per row that condition is that the joined channel had sent nothing past the token |
| Resume.ResumeCanLose | src/realtime/registry.rs:165-185 | a concrete run in which a resumed client never gets a message past its token |
| Drain.OutboxDispatcher.SelectBatch | src/realtime/outbox.rs:343-355 | returns the first rows by id that are undispatched, at most the batch size |
| Drain.OutboxDispatcher.DispatchRow | src/realtime/outbox.rs:359-503 | a row is marked if and only if one of its three columns is set and publish, ack and update succeed; the mark is the sequence the duplicate window knows or the next one, and a stored row is stored once |
| Drain.OutboxDispatcher.DrainOnce | src/realtime/outbox.rs:334-507 | a whole pass over the selected batch, whatever fails, and its count of dispatched rows (`Drain.DispatchedAre`) |
| Drain.DispatchedAre | src/realtime/outbox.rs:452-507 | the count of a pass is the number of batch rows with one of the three columns set whose update succeeds |
| Drain.BatchIs | src/realtime/outbox.rs:343-355 | batch rows are committed, unmarked and in id order, and any such row left out comes after a full batch |
| Drain.RoutableByColumns | src/realtime/outbox.rs:366-387 | the rows a pass is to mark are the unmarked ones with an aggregated board, a board or a project |
| Drain.PassIsARun | src/realtime/outbox.rs:334-507 | an undisturbed pass, with any failures, is a run of the transition system ending in the same table and stream, so every theorem about runs speaks about the loop |
| Drain.PassMarks | src/realtime/outbox.rs:343-503 | a failure-free pass marks exactly the routable rows of its batch |
| Drain.BatchTakes | src/realtime/outbox.rs:343-355 | a batch takes all routable rows, or fills all but as many places as there are unroutable rows |
| Drain.DrainFinishes | src/realtime/outbox.rs:343-503 | with r routable and u unroutable pending rows and batch size b > u, any number of passes with passes * (b - u) >= r marks every routable row |
| Drain.PassesAssign | src/realtime/outbox.rs:343-503 | over failure-free passes a marked row gets the sequence the duplicate window knew, or a new one above all old ones, and new ones follow row-id order |
| Drain.SequencesFollowIdsIff | src/realtime/outbox.rs:343-503 | all sequence numbers assigned follow row-id order if and only if, for every marked row the window knew, the marked rows with smaller ids were known too and stored earlier; so always if it knew none |
| Shutdown.Spawn | src/realtime/outbox.rs:244-295 | by turn: with a first turn that is signalled or woken by the signal, one pass for every turn before it, one more if it was signalled at its head and two more if it was woken, and the loop has stopped; with no such turn one pass a turn; it listens as long as no notification has failed; each pass works on what the one before left and what arrived |
| Shutdown.WhenItStops | src/realtime/outbox.rs:261-295 | the same count of passes, as a statement about the turns alone |
| Shutdown.Pass | src/realtime/outbox.rs:334-507 | each pass of the loop, after whatever others commit and whatever fails in it, its SELECT included, continues the series of passes |
| Shutdown.LoopIsARun | src/realtime/outbox.rs:244-295 | all passes of the loop together, with any failures and any rows committed between them, are a run of the transition system ending in the same table and stream, so the safety theorems speak about the loop |
| Shutdown.FlawlessLoop | src/realtime/outbox.rs:276-290 | from when writers are quiet and nothing fails, n turns with n * (b - u) >= r leave no routable row, whatever wakes the loop |
| Shutdown.InBatchIff | src/realtime/outbox.rs:343-355 | a waiting row is in the batch exactly when fewer than a batch of waiting rows have smaller ids |
| Shutdown.FinalDrainFlushesIff | src/realtime/outbox.rs:318-325 | the final pass leaves nothing routable exactly when no routable row has a whole batch of rows ahead of it |
| Shutdown.LastPassFindsAll | src/realtime/outbox.rs:262-284 | the last pass of a loop selects from a table that holds every row there was and every row that arrived before it |
| Shutdown.StoppedLoopFlushesIff | src/realtime/outbox.rs:318-325 | if nothing fails in its last pass, a stopped loop leaves nothing routable if and only if no routable row that pass finds has a whole batch of rows ahead of it |
| BoardStream.ReplaySnapshot | src/services/boards.rs:526-562 | yields the snapshot envelopes the reference tracker emits: all of them, in order, when their ids are distinct |
| BoardStream.TailLive | src/services/boards.rs:587-649 | the loop ends at the first turn that fails a check, lags or finds the channel closed, with the error that calls for or none; it yields what the tracker emits for the messages before that turn and no others, and one heartbeat for every turn that found one due |
| BoardStream.OpenLive | src/services/boards.rs:523-578 | the snapshot, whole when its ids are distinct, then the cutover mark; the tracker is left where the reference run is |
| BoardStream.BuildStream | src/services/boards.rs:510-650 | the whole stream: a refused subscription yields one internal error, a failed snapshot its own status, and nothing else; otherwise snapshot, cutover mark and live tail in this order, yielding what the tracker emits for the snapshot, the cutover and the messages before the turn that ends it |
| BoardStream.HowItBegins | src/services/boards.rs:510-578 | a fresh stream begins with every event of a snapshot with distinct ids, in order, and then the mark of its maximum; a resume with the mark of its token |
| BoardStream.HowItEnds | src/services/boards.rs:592-641 | case by case: an expired token, a revoked permission, a check that fails, a lag and a closed channel end the stream with `Unauthenticated`, `PermissionDenied`, the status of the check, `ResourceExhausted` and no error; nothing else ends it, and an error is last |
| BoardStream.WhatIsAskedFirst | src/services/boards.rs:526-578 | before the tail the tracker is asked about each snapshot event in order, and told the maximum; on a resume it is only told the token |
| BoardStream.WhatIsAsked | src/services/boards.rs:617-632 | on the tail it is asked about each message before the end, once, in order, and about nothing else |
| BoardStream.YieldedSnoc | src/services/boards.rs:533-632 | the events of the output are its snapshot and live responses, in order, with the ids and sequences they carry |
| BoardStream.HowOftenItBeats | src/services/boards.rs:642-648 | as many heartbeats as turns before the end that found one due |
| BoardStream.RunAsTurns | src/services/boards.rs:587-641 | what any run of the whole system hands the handler is the messages it has taken, and then a lag if and only if the run has ended with one |
| BoardStream.RunAsStream | src/services/boards.rs:587-641 | so the stream ends with `ResourceExhausted` exactly in those runs, and the tracker is asked about exactly what the run has taken |
| Registry.BoardSubscriberRegistry.JoinExisting | src/realtime/registry.rs:171-185 | joins an existing channel and counts the handle, or changes nothing |
| Registry.BoardSubscriberRegistry.InsertChannel | src/realtime/registry.rs:286-297 | puts the new channel in the map whatever was there |
| Registry.BoardSubscriberRegistry.DecrementRefcount | src/realtime/registry.rs:312-332 | one handle less; the entry goes and its pump is aborted exactly when the count reaches zero |
| Registry.RefcountsStayBounded | src/realtime/registry.rs:165-332 | in every interleaving an entry's refcount is between 1 and the live handles on its key, pump ids are unique and no pump in the map is aborted |
| Registry.ExactIffNoOverwrite | src/realtime/registry.rs:286-305 | refcounts equal live handles in every state of a run if and only if no slow path replaced an entry; and then no pump is aborted under a live handle |
| Registry.NoOverlapIsExact | src/realtime/registry.rs:165-305 | when slow paths on one key never overlap, refcounts are exact and no live pump is aborted |
| Registry.StraysAccount | src/realtime/registry.rs:286-332 | in every interleaving an entry's pump feeds as many live handles as the refcount says, plus one for each handle of a replaced pump dropped since the entry was inserted |
| Registry.LivePumpAbortedIff | src/realtime/registry.rs:286-332 | over every run, no pump is aborted under a live handle if and only if no drop removes an entry that has seen, since its insertion, the drop of a handle of a pump it replaced |
| Registry.OverlapAbortsLivePump | src/realtime/registry.rs:286-332 | on any key, two overlapping first subscribers: dropping one aborts the pump that feeds the other |
| Registry.ReplacedPumpLeaks | src/realtime/registry.rs:286-297 | a replaced pump is out of the map for good and nothing ever aborts it |
| AggregateStream.ReachableInv | src/services/aggregated_boards.rs:1228-1251 | in every run the queue holds, source by source, exactly a gapless prefix of what was broadcast on the channel |
| AggregateStream.ForwarderIsReader | src/services/aggregated_boards.rs:1228-1251 | in every run each forwarder is a receiver on the overwriting ring whose handler gives up at the first lag |
| AggregateStream.LaggedIffSeen | src/services/aggregated_boards.rs:1231-1247 | a forwarder has lagged if and only if some receive of the run found more than the ring waiting on its channel |
| AggregateStream.EverythingArrivesIff | src/services/aggregated_boards.rs:1223-1298 | once caught up, the client has been sent every broadcast envelope if and only if no receive of the run found more than the ring waiting and the queue was in sequence order |
| AggregateStream.LagIsForGood | src/services/aggregated_boards.rs:1231-1247 | after a forwarder has lagged, in no continuation of the run does anything more of its channel reach the queue, and while another one runs the stream stays open unless a check ends it |
| AggregateStream.LagLosesSilently | src/services/aggregated_boards.rs:1231-1247 | a concrete run loses two envelopes while the stream stays open |
| Positions.OrderIsUnique | src/services/boards.rs:440-449 | a table without ties stands for one list only |
| Positions.InsertedIsOrder | src/services/boards.rs:1226-1258 | for any integer position the insert keeps the order of the others and puts the new id before the rows at or above it |
| Positions.InsertNumbered | src/services/boards.rs:1196-1258 | from 0..n-1 the insert is the list insert at the clamped position, and keeps 0..n exactly when the position is in 0..n |
| Positions.MovedIsOrder | src/services/boards.rs:1542-1581 | for any target the move is remove-then-insert and keeps the order of the other ids |
| Positions.MoveNumbered | src/services/boards.rs:1519-1581 | from 0..n-1 the move is remove-then-insert at the clamped index, and keeps 0..n-1 exactly when the target is below n |
| Positions.SelectOrdered | src/services/boards.rs:1450-1463 | reading in position order returns a list the table stands for, ties or not |
| Positions.ApplyOrder | src/services/aggregated_boards.rs:179-197 | writing positions one by one leaves the table numbered 0..n-1 in the given order |
| Columns.ColumnTable.MaxPosition | src/services/boards.rs:1197-1204 | the largest position, or -1 for an empty board; n-1 when numbered |
| Columns.ColumnTable.AddColumn | src/services/boards.rs:1196-1258 | position zero appends, any other integer is used as it is; the others keep their order, ties among them included, no tie is made, and nothing changes if and only if a 32-bit position overflows: the appended one, or that of a row to shift |
| Columns.ColumnTable.MoveColumn | src/services/boards.rs:1498-1581 | a 1-based target: remove-then-insert, the others in order, ties or not; targets below 1 and unknown columns are refused and change nothing |
| Columns.ColumnTable.ShiftAndPlace | src/services/boards.rs:1542-1581 | the two statements of a move compute the moved table |
| Columns.ColumnTable.RemoveColumn | src/services/boards.rs:1431-1470 | removes exactly the column and restores 0..n-1 in an order the old positions may be read in; without ties that is the old order |
| Columns.InsertAdds | src/services/boards.rs:1226-1258 | inserting is the list insert for every integer position |
| Columns.MoveMoves | src/services/boards.rs:1542-1581 | the shifts of a move are remove-then-insert for every target |
| SourceBoards.UpsertedIsOrder | src/services/aggregated_boards.rs:905-923 | shift and upsert put the board before the rows at or above the position and drop its old place, whether it was there or not |
| SourceBoards.PutNew | src/services/aggregated_boards.rs:905-927 | for a new board the closed form is the list insert |
| SourceBoards.PutExisting | src/services/aggregated_boards.rs:905-927 | for a board already there the closed form is remove-then-insert, one place earlier when it moves back over its old place |
| SourceBoards.SelectByAge | src/services/aggregated_boards.rs:158-177 | reading returns the table by position, ties by age |
| SourceBoards.ReadOrder | src/services/aggregated_boards.rs:158-177 | of two boards so read the first has the smaller position, or the same one and is no younger |
| SourceBoards.SourceTable.AddSourceBoard | src/services/aggregated_boards.rs:880-927 | from any table the shifted and upserted rows are read by position and age and renumbered 0..n-1; without ties the list is L[..p] without b, then b, then L[p..] without b, and from 0..n-1 p is the clamped request or the end; only a new board gets a new age |
| SourceBoards.SourceTable.RemoveSourceBoard | src/services/aggregated_boards.rs:978-991 | removes the board if it is there; the others are renumbered 0..n-1 by position and age, without ties in the old order |
| SourceBoards.SourceTable.MoveSourceBoard | src/services/aggregated_boards.rs:1040-1053 | from any table: remove-then-insert on the list as read by position and age, at the clamped index, a negative target being the end; an absent board changes nothing |
| SourceBoards.MovedList | src/services/aggregated_boards.rs:1042-1053 | the in-memory reorder keeps exactly the same distinct boards and clamps a target that wrapped to a huge index |
| SearchIndex.ReachableInv | src/realtime/outbox.rs:465-488 | with one dispatcher, interrupted or not, each card not left behind agrees in the document to come with the table, or a row that will make it so is still to be dispatched |
| SearchIndex.MarkKeepsCard | src/realtime/outbox.rs:451-488 | marking rows in any order keeps the promise of every card |
| SearchIndex.AgreesOnceAnnounced | src/services/cards.rs:1190-1253 | with one dispatcher, however often it is cut off, at every quiet moment of every run a touched card is indexed as it is if an event or a begun update of it followed its last change without an event and its last update cut off |
| SearchIndex.IndexEqualsTable | src/realtime/outbox.rs:465-488 | if the backfill left the index equal to the table, it is equal again at every quiet moment at which no card has been left behind |
| SearchIndex.ConvergesIff | src/realtime/outbox.rs:465-488 | at every quiet moment each touched card is indexed as it is, or not at all if gone, if and only if there is one dispatcher, no interruption after a mark and no change without an event |
| SearchIndex.HookByType | src/realtime/outbox.rs:476-488 | which event types load the card, which removes it, and that no other does anything |
| SearchIndex.TouchedByType | src/realtime/outbox.rs:476-488 | a marked row of any of the five types makes its card one that `ConvergesIff` speaks about |
| SearchIndex.InterruptLeavesStale | src/realtime/outbox.rs:461-488 | a concrete run: cut off between mark and index write, the document stays stale |
| SearchIndex.UnloggedLeavesStale | src/search_indexing.rs:33-122 | a concrete run: a card removed without an event keeps its document |
| SearchIndex.RaceLeavesStale | src/realtime/outbox.rs:465-488 | a concrete run: two dispatchers write the older of two loads last |
| SearchIndex.SearchIndexer.CardDocumentFromDb | src/search_indexing.rs:33-91 | three loads make the document of the card when the table does not change between them, and none for an absent card |
| SearchIndex.SearchIndexer.IndexCardById | src/search_indexing.rs:95-115 | a failure or an absent card changes nothing; otherwise exactly the card's document is replaced |
| SearchIndex.SearchIndexer.DeleteCardDoc | src/search_indexing.rs:118-122 | removes exactly the card's document, or nothing on failure |
| SearchIndex.SearchIndexer.AfterMark | src/realtime/outbox.rs:468-488 | with no failure and equal loads: after CardCreated, CardUpdated, CardMoved and CardTransferred the document of a card in the table is the card, after CardDeleted it is gone, and no other row changes anything; a failure changes nothing, and other documents are never touched |
| Ids.RoundTrip | src/id.rs:80-107 | parsing a printed id gives it back, with the right kind, for every 128-bit value |
| Ids.ReprintOnce | src/id.rs:80-107 | printing a parsed text and parsing again changes nothing more |
| Ids.ReprintForm | src/id.rs:109-151 | what any accepted text is reprinted as: upper case with the first digit masked to three bits, or lower case with dashes |
| Ids.ReprintIsSameIff | src/id.rs:208-229 | a text is printed back as it stands if and only if it is canonical, told from its characters |
| Ids.CanonicalIsImage | src/id.rs:80-107 | canonical texts are exactly the printed ids, one id each |
| Ids.DecodeMasks | src/id.rs:109-114 | shifting digits into 128 bits yields the number modulo 2^128 |
| Ids.UlidCanon | src/id.rs:215-229 | an overflowing 26-character text keeps all but the top bits of its first digit |
| Ids.HexLength | src/id.rs:116-131 | an accepted UUID text has 32 digits, and the 36-character form is those digits with dashes at the four places |
| Ids.Alphabets | src/id.rs:80-151 | the characters ids are printed with, spelt out |
| Ids.DigitIff | src/id.rs:109-139 | the characters that are read as digits, in either case |
| Ids.AcceptedIff | src/id.rs:89-139 | a text is an id if and only if it is 26 base-32 digits, 32 hexadecimal digits, or those with dashes at the four places |
| Ids.PrintOrder | src/id.rs:80-87 | ids of one kind sort as text exactly as they sort by value |
| Ids.TextLessIff | src/system_migrations/migrations/card_parent_tuples.rs:57-72 | texts are compared at the first place where they differ, a prefix first |
| Ids.TimestampSplitsIff | src/id.rs:58-66 | the low 80 bits always survive; the timestamp splits back exactly when it is below 2^48; nothing else is rejected than what is no UUID |
| Ids.SortsByTime | src/id.rs:52-66 | rewritten ids sort by creation time as text |
| Keyset.WhereIsSuffix | src/system_migrations/migrations/card_parent_tuples.rs:57-72 | on an ordered table the condition on the id cuts off a prefix |
| Keyset.QueryIs | src/system_migrations/migrations/card_parent_tuples.rs:57-72 | a query returns at most the limit of rows, all above the id and in id order |
| Keyset.QueryRest | src/system_migrations/migrations/card_parent_tuples.rs:57-72 | a row above the id that it does not return comes after a full page |
| Keyset.ScanPage | src/system_migrations/migrations/card_parent_tuples.rs:56-114 | one turn of the loop visits the next page and continues after its last id |
| Keyset.ScanCards | src/system_migrations/migrations/opensearch_cards.rs:49-89 | the loop with a query budget visits what the walk over positions visits |
| Keyset.VisitsAllIff | src/system_migrations/migrations/card_parent_tuples.rs:50-119 | every card exactly once, in order, within one query more than there are pages, if and only if the re-printed last id of every page separates what was read from the rest |
| Keyset.SeparatesIff | src/system_migrations/migrations/card_parent_tuples.rs:57-72 | an id separates exactly when the rows above its re-printed text are those after its page |
| Keyset.CanonicalScan | src/system_migrations/migrations/card_parent_tuples.rs:50-119 | with canonical ids every card is visited exactly once in ceil(n/500) + 1 queries, and in no fewer does the loop end |
| Keyset.NotBefore | src/system_migrations/migrations/opensearch_cards.rs:67-69 | the end is noticed only on an empty page |
| Keyset.OverflowingIdLoops | src/id.rs:208-229 | a table with one overflowing id is scanned for ever |
| Migrations.LedgerIsPrefix | src/system_migrations/runner.rs:20-57 | for every schedule of cut-off boots the ledger lists a prefix of the registered migrations |
| Migrations.FirstOk | src/system_migrations/runner.rs:20-57 | the first boot that ends well leaves the initial store plus every write, however often bodies ran before |
| Migrations.OkIffEnough | src/system_migrations/runner.rs:20-57 | a boot ends well exactly when it is not cut off before the calls, writes and ledger inserts still missing |
| Migrations.AppliedIsSkipped | src/system_migrations/runner.rs:25-35 | with a complete ledger a boot changes nothing |
| Migrations.StartsAreCounted | src/system_migrations/runner.rs:20-57 | for every schedule of boots, a body is started once for each boot that ends inside it, and once more when it is recorded |
| Migrations.ExactlyOnceIff | src/system_migrations/mod.rs:4-6 | of the boots up to one that leaves body j recorded exactly one starts it, if and only if none ends after the call of the body and before its ledger insert, also where the body writes nothing, which is arithmetic on the cuts |
| Migrations.OkRecordsAll | src/system_migrations/runner.rs:20-57 | a boot that ends well has recorded every body |
| Migrations.BodyRunsAgain | src/system_migrations/mod.rs:4-6 | a concrete failure: a boot cut off before the first ledger insert has run the whole body and the next boot starts it again |
| Migrations.BackfilledAfterOk | src/system_migrations/registry.rs:8-11 | after the first successful boot the tuples are the initial ones plus, for each card, the one of its tenant that makes its own board its parent, the index holds every card's document and otherwise what it held, and the ledger has the two names |
| Migrations.OneTuplePerCard | src/system_migrations/migrations/card_parent_tuples.rs:98-105 | no two cards share a parent tuple, whose fields are the tenant, the card, the relation and the card's board |
| Migrations.MigrationRunner.RunAll | src/system_migrations/runner.rs:20-57 | the loop computes the boot the theorems speak about and starts the bodies they count |
| Migrations.MigrationRunner.RunBody | src/system_migrations/runner.rs:42-45 | a body performs its writes in order until it is cut off |
| Migrations.MigrationRunner.RecordApplied | src/system_migrations/runner.rs:80-86 | appends the name to the ledger |
| Migrations.MigrationRunner.CreateRelationTuple | src/auth/permission_client.rs:258-276 | a tuple already there is rejected and nothing changes |
| Migrations.MigrationRunner.Grant | src/auth/permission_client.rs:251-279 | after a successful grant the tuple is there, once, whether or not it was before; any error but the duplicate is returned |
| Migrations.MigrationRunner.GrantRows | src/system_migrations/migrations/card_parent_tuples.rs:79-114 | each row's tuple goes to the store of its own tenant, in order, until cut off |
| Migrations.MigrationRunner.IndexRows | src/system_migrations/migrations/opensearch_cards.rs:71-88 | each row's document is written, in order, until cut off |
| Migrations.MigrationRunner.BackfillParents | src/system_migrations/migrations/card_parent_tuples.rs:50-119 | on any table the paged backfill performs the writes of the rows its scan visits, in order, until it is cut off |
| Migrations.MigrationRunner.BackfillIndex | src/system_migrations/migrations/opensearch_cards.rs:43-93 | the same for the index |
| Migrations.BackfillsWholeTable | src/system_migrations/migrations/card_parent_tuples.rs:50-119 | with canonical ids that is one write per card of the table, in order |
| TupleStore.PermissionStore.ListRelationTuples | src/auth/permission_client.rs:370-400 | one page: the first listed ids above the token, and a token unless nothing more is listed |
| TupleStore.PermissionStore.DeletePage | src/auth/permission_client.rs:429-443 | removes the page's tuples of the subject and no others |
| TupleStore.PermissionStore.DeleteRelationTuples | src/auth/permission_client.rs:406-452 | terminates; on success a tuple stays exactly when its namespace, a given object or relation, or the subject differs, although every page shrinks the set being paged; on failure nothing else is gone; more than 2n + 1 working calls are enough |
| TupleStore.SparedNext | src/auth/permission_client.rs:429-443 | passing one listed tuple accounts for every matching tuple up to its id |
| TupleStore.NothingLeft | src/auth/permission_client.rs:445-448 | when a page comes without a token no matching tuple is left |
| Revisions.RevisionsAreGapless | src/event_log.rs:44-70 | over every interleaving of committing and aborting transactions the committed rows of a counter carry its revisions once each, in order, without gaps |
| Revisions.CommitKeeps | src/event_log.rs:51-57 | a commit keeps every counter's log gapless and every other open transaction's view right |
| Revisions.LogIsCommitted | src/event_log.rs:44-135 | in every interleaving the log is exactly the inserts of the committed transactions, whole and in commit order, with no payload changed but for its revision |
| Revisions.EnvelopesShowRevisions | src/realtime/outbox.rs:597-603 | in every run each committed row with an object payload shows its own revision in the envelope, any other shows zero |
| Revisions.EventLogTx.InsertKeyedEvent | src/event_log.rs:44-70 | bumps the counter and writes the row with the new revision, or fails and changes nothing when the counter does not exist |
| Revisions.EventLogTx.InsertProjectEvent | src/event_log.rs:108-125 | writes the row without a revision |
| Revisions.EventLogTx.RecordBoardUpdate | src/services/boards.rs:1026-1051 | one event for a new name, one for a new description or icon, with consecutive revisions when both |

## Left out

- NATS, JetStream, Postgres, OpenSearch, the permission gateway and HTTP: they appear only as the steps and results assumed above. Retention (a stream that expires old messages), replication and server limits are not modelled.
- Deleting a board is modelled only as far as event rows go (they and their marks vanish); what it does to subscribers of the deleted board is not.
- SpineTheorems.NothingIsLost: is about a fresh subscriber and a tracker that sees real sequence numbers; an envelope whose delivery info cannot be read is stamped 0 by the pump (`Broadcast.RunPump`) and a tracker drops it.
- Snapshot.SnapshotOrLive: speaks of the column a card is in and the board of the column. The column shown is the one the card's own fetch finds, whichever column listed it; a card deleted between listing and fetch fails the whole snapshot. The order of cards in a column and a card's other fields are not modelled; what was heard last is by commit order, which is a card's revision order; merging events by id or revision is the client's business. A CardUpdated event carries a patch and is not counted as telling where a card is.
- Cutover.MergeEmitsMaxima: requires distinct event ids, as the forwarders' channels belong to different objects; duplicates of one event are covered by `RepeatsAreSpaced`.
- Spine: the broadcast ring holds exactly the configured capacity; the library rounds it up to a power of two. Token and permission checks are a step that may end the stream; heartbeats are no steps.
- Drain.DrainFinishes: holds without failures and new rows, as a bound on progress must; with failures only the safety theorems apply.
- Shutdown.Spawn: others commit between its passes, not during one, and boards are not deleted meanwhile; in `Spine` everything interleaves. How long a wait lasts and reconnecting the listener are left out.
- SourceBoards.SourceTable.AddSourceBoard: rows that tie in position and age may be read in either order, as in the source. `MoveSourceBoard` writes no event, and neither does the model; two requests at once are not interleaved, but each operation starts from any table they could leave.
- Columns.ColumnTable.AddColumn: the rest of the row and the event are left out; two requests at once are not interleaved, but each operation starts from any table they could leave.
- Columns.ColumnTable.RemoveColumn: the renumbering UPDATE is taken to succeed; when it fails the transaction is aborted by the database although the handler goes on.
- SearchIndex.ConvergesIff: a document's fields are opaque; changes that no event of the card follows (a removed column's cards, a deleted or renamed label, an UpdateCard stopped between its two commits) are its changes without an event.
- Ids: the ULID codec is an external crate, written here from its specification; `Id::new` and its clock are not modelled, and the derived ordering of ids is not used by queries.
- Keyset.ScanCards: the table does not change during the scan; a row whose id does not decode makes the source panic and is not modelled.
- Migrations.MigrationRunner.BackfillParents: every page costs at least one effect, so a scan that would loop for ever (`OverflowingIdLoops`) ends when the boot does; the retries inside one grant are one write.
- Migrations: two processes booting at once, and the outbox indexing while a backfill runs, are left out.
- TupleStore.PermissionStore.DeleteRelationTuples: no other writer is active; the transport errors of a call end the loop, and how many calls succeed is a parameter.
- Revisions: counters are unbounded where the source has 64 bits; creating and deleting boards is left out.
- Payload tables, protobuf and JSON codecs, card handlers, labels, visibility, attachments, the permission matrix, configuration and metrics would only add easy members.
