# A verified model of openboa's agent runtime

This project models the parts of openboa that decide when an agent session runs, what is kept
when a run fails, and what may be promoted or merged, and proves what those parts promise. It is
written in Dafny 4.11; `dafny verify dfyconfig.toml` checks all of it.

## The system that is modelled

**Wakes.** A session can be asked to wake later. Every request is a record in an append-only
journal of that session; a completed record closes it. Beside the journals sits one index per
agent that lists, for each session with a pending wake, the earliest due time. Modules
`WakeJournal` (records and their fold), `WakeIndex` (the sorted listing), `SessionWakeQueues`
(the queue as a class with atomic operations), `WakeProtocol` (the same operations cut into the
steps that really interleave: read, append, take the lock, read the index, write it),
`WakeRefinement` (an operation that nobody interrupts does in the second model what it does in
the first), `WakeSerial` (when interleaved runs keep the index exact) and `WakeConservation`
(what a list of enqueues that may stop short adds and loses).

**Activations.** Runnable sessions and due wakes are merged into one ranked list; the best one
is leased, the claim is journaled, the session is woken, and the lease is closed. Modules
`Activations`, `ActivationClaims`, `ActivationQueue`, `WakeSession` and `Orchestration`.

**A turn and what it leaves behind.** `LoopDirective` is what the model's reply asks for and the
bound on follow-ups over a session's life; `OutcomeHistory` is the bounded history of evaluations
and of shell commands; `OutcomeGate` is the gate that allows promotion; `ContextBuilder` is the
selection of history under a token budget; `Retrieval` (with `Grouping`) is the merge and ranking
of retrieval candidates.

**Edges.** `EventStream` splits a character stream into server-sent events, sections 9.2.5 and
9.2.6 of the WHATWG HTML Living Standard, restricted as the program restricts them: blank lines
are two line feeds, and only `data:` lines count. `CliRunQueue` is a promise chain used as a
ticket lock. `WriterLedger`, `RetryMetadata` and `WriterPilot` are the one-shot writer: a ledger
in front of every request, a comparison between successive collections of evidence, and a run
that sends at most one PUT.

`Options`, `Strings` and `Sorting` hold the few operations of the host languages that the others
use. Time is an integer. Session ids are numbers that stand for their rank in the comparison
order. Clocks, the network, the harness, the store and everything else outside the files named
below enter as parameters: functions of the step, or values that say what an outside call answers
or whether it throws.

## What the code does not do

Some properties one would expect do not hold. The code is modelled as it is; each of these is
stated and proved.

- Two enqueues that both read the journal before either appends can leave the index at the later
  of two due times, and can leave one dedupe key on two pending wakes
  (`WakeProtocol.RacingEnqueuesLoseExactness` gives the race, and says that the index ends exact
  if and only if the call that synchronises last is due no later). Under every
  interleaving only membership in the index and eventual discovery hold. Exactness and unique
  keys hold in every run in which one session has one enqueue or consuming call at a time and no
  call is stopped by the index lock after it has appended (`WakeSerial.OrderlyRunsStayExact`).
- A thrown failure with replay on can lose wakes when the index lock is not obtained in time:
  while consuming, nothing was returned to be restored; while restoring, the enqueue that missed
  the lock has appended its wake, and the later ones are never reached. What was consumed is
  conserved if and only if every wake beyond those restored has a key that is held
  (`WakeSession.WakeSessionOnce` with `WakeConservation.ConservedIffRestHeld`; the loss is
  `WakeConservation.MissedLockLosesTheRest`); with the lock obtained nothing
  is lost (`WakeSession.NothingLostWithLock`). The claim of a run whose restore threw is
  abandoned as `not_executed`.
- A throw while the lease is being closed makes the wake fail for its caller after its harness
  has run: it is not counted as executed, and the wakes it consumed are not restored
  (`WakeSession.WakeSessionOnce`, the result `CloseThrew`).
- A restored wake is put off only when the replay delay is positive; with a zero delay it keeps
  its due time even if that has passed (`WakeSession.ReplacementsFound`).
- The last two conversation records are tried older first, so the older one can displace the
  newest: the newest is kept if and only if it fits and not just the older fits of a pair that
  does not fit together (`ContextBuilder.ContinuitySurvives`).
- A merge key joins its parts with `::` without escaping, so different contents can share a key
  (`Retrieval.DifferentContentsCanShareKey`). When no part but the last holds a colon, keys are
  equal if and only if the parts are (`Retrieval.PlainKeysTellApart`).
- Evidence that one candidate repeats stays repeated: the merged evidence has one entry per
  backend and source if and only if the first candidate's had (`Retrieval.MergedEvidence`).
- The guard for a busy shell lowers the status of an evaluation but keeps the trend computed
  before; the two agree if and only if `OutcomeGate.KeepsItsTrend` holds
  (`OutcomeGate.GuardedTrendIsHonest`, with a session in `OutcomeGate.GuardedTrendCanMislead`).
- The entry of a key in the run queue is never deleted: the map stores the chained promise, and
  the comparison before the deletion looks for the ticket (`CliRunQueue.EntriesAreNeverDeleted`).
- A requested follow-up delay has no upper bound, while a queued wake is cut to a day: a turn
  fails if and only if a due time lies beyond what the host language can print
  (`LoopDirective.ResolveLoopDirective`). A delay below one second becomes zero and is still a
  delay (`LoopDirective.WholeSeconds`).
- A provider failure that is retried persists the outcome `continue` with a counter of zero
  (`LoopDirective.SessionHarness.HandleRunFailure`).

## Model

| member | source | states |
|---|---|---|
| `WakeJournal.FoldRecords` | src/agents/runtime/session-wake-queue.ts:357-377 | the loop over a journal computes the fold that every other statement is about |
| `WakeJournal.PendingMeaning` | src/agents/runtime/session-wake-queue.ts:357-377 | a wake is pending exactly when its enqueued record is the last record naming its id, read without folding |
| `WakeJournal.PendingAfterEnqueue` | src/agents/runtime/session-wake-queue.ts:145-149 | appending a wake with a new id adds exactly that wake, at the end |
| `WakeJournal.PendingAfterCompletion` | src/agents/runtime/session-wake-queue.ts:203-210 | a completed record removes exactly the wake with its id |
| `WakeJournal.PendingAfterCompletions` | src/agents/runtime/session-wake-queue.ts:203-210 | a batch of completed records removes exactly the wakes with their ids and keeps the order of the rest |
| `WakeJournal.EarliestDue` | src/agents/runtime/session-wake-queue.ts:541-547 | the least due time of the pending wakes, absent exactly when there are none |
| `WakeJournal.DedupeWakeList` | src/agents/runtime/session-wake-queue.ts:581-587 | one wake per id, the last one given winning, soonest first |
| `WakeIndex.DescribesUnique` | src/agents/runtime/session-wake-queue.ts:549-566 | the index that lists a map of due times is unique |
| `WakeIndex.DedupePendingWakeEntries` | src/agents/runtime/session-wake-queue.ts:549-566 | one entry per session with its least due time, in strict order |
| `WakeIndex.ReplaceEntry` | src/agents/runtime/session-wake-queue.ts:441-453 | the rewritten index lists the old map with one session put or removed, and is written exactly when that map differs |
| `WakeIndex.NextDueUpdate` | src/agents/runtime/session-wake-queue.ts:428-455 | changing one journal changes what the index must say in that session's entry only |
| `SessionWakeQueues.SessionWakeQueue.constructor` | src/agents/runtime/session-wake-queue.ts:70-76 | an empty queue is valid and its index exact |
| `SessionWakeQueues.FindKey` | src/agents/runtime/session-wake-queue.ts:130-141 | finds a pending wake holding the non-empty key, or none holds it |
| `SessionWakeQueues.SessionWakeQueue.Enqueue` | src/agents/runtime/session-wake-queue.ts:118-155 | a held key returns its holder and changes nothing; otherwise exactly one wake is added, with a new id, and the call throws after adding it exactly when the index lock is not obtained; without a throw the index stays exact |
| `SessionWakeQueues.SessionWakeQueue.SyncPendingWakeSessionIndex` | src/agents/runtime/session-wake-queue.ts:428-455 | the session's entry becomes the earliest due of the known states, or of its journal; the others stay |
| `SessionWakeQueues.SessionWakeQueue.AppendWake` | src/agents/runtime/session-wake-queue.ts:145-153 | the append and the index update from the states read before it agree with the new journal; without the lock the wake is appended and the index left as it was |
| `SessionWakeQueues.SessionWakeQueue.ListPending` | src/agents/runtime/session-wake-queue.ts:167-176 | a wake is listed exactly when it is pending and due by the time; the list is sorted by due time and has each wake once |
| `SessionWakeQueues.SessionWakeQueue.ConsumeDue` | src/agents/runtime/session-wake-queue.ts:197-215 | hands out exactly the due wakes, none ever handed out before, and leaves exactly the later ones pending |
| `SessionWakeQueues.SessionWakeQueue.CancelPending` | src/agents/runtime/session-wake-queue.ts:244-265 | hands out every pending wake, none ever handed out before, and leaves none |
| `SessionWakeQueues.SessionWakeQueue.ConsumeKnown` | src/agents/runtime/session-wake-queue.ts:217-237 | completes the given ids, whether or not they are pending, and returns one wake per id |
| `SessionWakeQueues.SessionWakeQueue.ConsumeUnsynced` | src/agents/runtime/session-wake-queue.ts:203-213 | what a consuming call that cannot take the index lock leaves behind: journal changed, index not |
| `SessionWakeQueues.SessionWakeQueue.PeekNextDueAt` | src/agents/runtime/session-wake-queue.ts:275-290 | the least indexed time over the allowed sessions, whatever the index; with an exact index, the least due time of their journals |
| `SessionWakeQueues.Discover` | src/agents/runtime/session-wake-queue.ts:308-338 | the loop of a discovery pass, with its trusted, corrected and dropped entries |
| `SessionWakeQueues.SessionWakeQueue.ListDueSessionWakes` | src/agents/runtime/session-wake-queue.ts:302-344 | reports a session exactly when it is indexed as due and a scan would report it; with an exact index it equals a scan of every journal and rewrites nothing |
| `SessionWakeQueues.DiscoveryIsFullScan` | src/agents/runtime/session-wake-queue.ts:302-344 | discovery through an exact index is the naive scan of all journals, in the same order |
| `SessionWakeQueues.EarliestEntry` | src/agents/runtime/session-wake-queue.ts:283-289 | the first allowed entry of an exact index is the minimum over the allowed sessions |
| `SessionWakeQueues.EnqueueKeepsSound` | src/agents/runtime/session-wake-queue.ts:118-155 | an enqueue keeps every key held once and every handed-out id closed, in all journals |
| `SessionWakeQueues.RetireKeepsSound` | src/agents/runtime/session-wake-queue.ts:197-215 | handed-out ids were never handed out before and are pending nowhere afterwards |
| `WakeProtocol.InvHolds` | src/agents/runtime/session-wake-queue.ts:118-155 | the invariant of the interleaved steps holds after any sequence of them |
| `WakeProtocol.NextKeepsInv` | src/agents/runtime/session-wake-queue.ts:428-455 | every single step of every process keeps that invariant, lock timeouts included |
| `WakeProtocol.SettledWakesAreIndexed` | src/agents/runtime/session-wake-queue.ts:428-455 | under every interleaving a session with a pending wake whose enqueue finished is indexed, at the due time of some wake enqueued for it |
| `WakeProtocol.DiscoveryFindsSettledWakes` | src/agents/runtime/session-wake-queue.ts:302-344 | under every interleaving a discovery pass past all of a session's due times reports each of its settled pending wakes, and only due wakes |
| `WakeProtocol.RacingEnqueuesLoseExactness` | src/agents/runtime/session-wake-queue.ts:129-153 | a race after which the index is exact if and only if the last to synchronise is due no later, with one key on two wakes |
| `WakeSerial.StepKeepsSession` | src/agents/runtime/session-wake-queue.ts:118-155 | while one session has one enqueue or consuming call at a time, every step of every process keeps its keys unique, and its entry right whenever no call on it has appended without synchronising |
| `WakeSerial.OrderlyRunsStayExact` | src/agents/runtime/session-wake-queue.ts:428-455 | in every run with one call per session at a time, new ids and no lock timeout after an append, each session without a call under way has exactly its earliest due time indexed, and every key is held once at every moment; other sessions and discovery passes interleave freely |
| `WakeSerial.OrderlyRunsEndExact` | src/agents/runtime/session-wake-queue.ts:428-455 | such a run with no call under way ends with the exact index |
| `WakeRefinement.EnqueueAlone` | src/agents/runtime/session-wake-queue.ts:118-155 | uninterrupted, the steps of an enqueue do to journals and index what the atomic enqueue does |
| `WakeRefinement.TakeAlone` | src/agents/runtime/session-wake-queue.ts:203-213 | uninterrupted, the steps of a consuming call complete each wake and index what is left |
| `WakeRefinement.ConsumeAlone` | src/agents/runtime/session-wake-queue.ts:197-265 | uninterrupted, the steps of a consuming call complete exactly the pending wakes due by its time, or all, soonest first, and index what is left |
| `WakeRefinement.EnqueueTimesOut` | src/agents/runtime/session-wake-queue.ts:145-153 | an enqueue that does not obtain the lock has its wake in the journal and the index as it was |
| `WakeRefinement.TakeTimesOut` | src/agents/runtime/session-wake-queue.ts:203-213 | a consuming call that does not obtain the lock has its records in the journal and the index as it was |
| `WakeRefinement.ScanAlone` | src/agents/runtime/session-wake-queue.ts:308-342 | a discovery pass computes the same index and batches in whatever order it visits the entries |
| `WakeRefinement.ListAlone` | src/agents/runtime/session-wake-queue.ts:302-344 | uninterrupted, the steps of a discovery leave the index and report the due wakes of the sessions that the atomic discovery does |
| `Activations.ActivationOrder` | src/agents/runtime/session-activation-queue.ts:500-518 | the comparator puts first which activation stands before the other, by priority, kind, due time and session spelled out; it is total and ties only activations of one session |
| `Activations.ListImmediateActivations` | src/agents/runtime/session-activation-queue.ts:403-435 | exactly the allowed, unleased, undeferred runnable sessions, once each, urgent and with the fields their entry gives |
| `Activations.ListDelayedActivations` | src/agents/runtime/session-activation-queue.ts:437-471 | exactly the allowed, unleased sessions with due wakes, once each, with what the first of the wakes says and all of them at hand |
| `Activations.MergeDistinct` | src/agents/runtime/session-activation-queue.ts:487-498 | the merged list has one activation per session |
| `Activations.ListReadyActivations` | src/agents/runtime/session-activation-queue.ts:104-124 | exactly the ready activations, immediate before delayed for one session, each standing before the next |
| `Activations.ReadyListUnique` | src/agents/runtime/session-activation-queue.ts:104-124 | that list is the only one with these properties |
| `Activations.NextReadyActivation` | src/agents/runtime/session-activation-queue.ts:293-316 | a ready activation outside the excluded sessions that no other such activation stands before, absent exactly when all are excluded |
| `Activations.EventsBeforeWakes` | src/agents/runtime/session-activation-queue.ts:293-316 | a wake is chosen, whatever its priority, only when every session with events waiting is excluded |
| `Activations.DelayedAreDue` | src/agents/runtime/session-activation-queue.ts:437-471 | when the snapshot reports a scan of the journals, the delayed activations are exactly the eligible sessions with a wake due, each with all its due wakes |
| `ActivationClaims.ActivationJournal.RecordBlocked` | src/agents/runtime/activation-journal.ts:101-114 | a new claim that spells `blocked`; other claims unchanged; every claim legal |
| `ActivationClaims.ActivationJournal.RecordLeased` | src/agents/runtime/activation-journal.ts:87-99 | a new open claim that spells `leased`; other claims unchanged; every claim legal |
| `ActivationClaims.WakeLease.Close` | src/agents/runtime/session-activation-queue.ts:222-274 | however often it is called the lease is released once; the claim spells its ack, requeue or abandonment; it throws exactly when an append it comes to make fails, and still releases |
| `ActivationQueue.Search` | src/agents/runtime/session-activation-queue.ts:180-216 | each refused attempt was the best choice left and is journaled as blocked; the search ends because its exclusions strictly grow |
| `ActivationQueue.LeaseNextActivation` | src/agents/runtime/session-activation-queue.ts:156-291 | leases an activation whose acquire succeeded and that nothing ready stands before but what was excluded or contended: nothing of a higher priority, nor events where it is for wakes, nor a sooner due time; blocked only if all were contended |
| `WakeSession.DedupeWakeRestoreList` | src/agents/runtime/wake-session.ts:319-329 | one wake of each id given, the soonest of them, and the soonest first |
| `WakeSession.RestoreOrderOfDistinct` | src/agents/runtime/wake-session.ts:319-329 | of distinct wakes every one is restored, once |
| `WakeConservation.KeylessAdded` | src/agents/runtime/wake-session.ts:306-316 | a list of enqueues adds, for the requests without a key, exactly one pending wake each, with all that was asked for |
| `WakeConservation.KeysHeld` | src/agents/runtime/wake-session.ts:306-316 | every key asked for ends up held |
| `WakeConservation.OnlyInputsAdded` | src/agents/runtime/wake-session.ts:306-316 | what was pending stays pending, and anything new was asked for |
| `WakeConservation.AnswersFound` | src/agents/runtime/wake-session.ts:306-316 | each of a list of enqueues is answered by a pending wake: a new one with all that was asked for, or one that holds its key and was pending before or made for an earlier of them; nothing else becomes pending |
| `WakeConservation.ConservedIffRestHeld` | src/agents/runtime/wake-session.ts:306-316 | when only the first n enqueues take effect, nothing is lost if and only if each request after them has a key and that key is held |
| `WakeConservation.MissedLockLosesTheRest` | src/agents/runtime/session-wake-queue.ts:499-503 | of any two keyless requests the second is lost when the first appends and misses the lock, and a single one when nothing is restored |
| `WakeSession.RestoreConsumedWakes` | src/agents/runtime/wake-session.ts:296-317 | restores in order up to the first enqueue that throws, which itself counts when it threw for want of the lock; each of those wakes is replaced by a pending one with its reason, note, key and priority, due at the end of the delay at the soonest, or its key is held; all are conserved if and only if the keys of the rest are held |
| `WakeSession.ReplacementsFound` | src/agents/runtime/wake-session.ts:303-316 | the replacement of each restored wake, by the wakes' own fields and with different ids for different wakes |
| `WakeSession.EnqueueAll` | src/agents/runtime/wake-session.ts:442-460 | every requested wake is pending as asked for or its key is held, up to the first enqueue that throws before its append, or after it for want of the lock |
| `WakeSession.ConsumeForWake` | src/agents/runtime/wake-session.ts:171-179 | cancels, completes the prefetched wakes, or consumes the due ones, and removes exactly those |
| `WakeSession.DueWakesAreCompleted` | src/agents/runtime/wake-session.ts:171-179 | a pending wake that was handed to the run, or is due when it consumes, or is there on an interrupt, is completed under its id |
| `WakeSession.RunAndQueue` | src/agents/runtime/wake-session.ts:187-235 | executed exactly when the harness returned, the renewal held, no enqueue failed and nor did the tail; every wake asked for is then queued, and when a requeue is meaningful; otherwise the reason |
| `WakeSession.RestoreOnThrow` | src/agents/runtime/wake-session.ts:251-265 | restores only after a throw with replay on, and says which reason the claim is abandoned for: a failed renewal first, not executed only when the restoring itself threw |
| `WakeSession.ConsumeRunRestore` | src/agents/runtime/wake-session.ts:171-258 | what one run does to the queue: skipped exactly when there was nothing to do, executed exactly when nothing failed, conservation as an if-and-only-if over both lock conditions, and nothing else pending lost |
| `WakeSession.WakeSessionOnce` | src/agents/runtime/wake-session.ts:77-274 | a wake is skipped, executed or thrown for exactly its own reasons; when the run throws, the completed wakes are all conserved if and only if each one not restored has a key that is held; the lease is closed exactly once, its claim spells leased and then acked, requeued or abandoned with the reason, and a throw while closing fails the wake |
| `WakeSession.NothingLostWithLock` | src/agents/runtime/wake-session.ts:252-258 | with replay on, the lock obtained throughout and no enqueue failing, a run that throws loses nothing: the completed wakes, each once, are each replaced by a pending wake of their own with reason, note, key and priority, due at the end of the delay at the soonest, or stood for by one that holds their key |
| `WakeSession.SkippedHadNothingDue` | src/agents/runtime/wake-session.ts:149-169 | a skipped wake changed nothing, had no events waiting and no pending wake of the session due |
| `WakeSession.ExecutedWakesAreGone` | src/agents/runtime/wake-session.ts:171-235 | once a session is executed, no wake of its run is pending under its id, whatever else was enqueued meanwhile |
| `Orchestration.ExecuteReadyActivationsForCycle` | src/agents/runtime/orchestration.ts:272-429 | every lease granted is used for a wake of its session, the k-th one in the k-th world, with the due wakes of its activation in hand; results and queue are those wakes' and only they change the queue; no session is attempted twice; the cycle ends when nothing is ready outside those attempted or leased; every lease whose claim was recorded is closed |
| `Orchestration.Wake` | src/agents/runtime/orchestration.ts:126-147 | the wake of an activation's session with its due wakes where it is for wakes, and nothing else done to the queue |
| `Orchestration.CountIsOfExecuted` | src/agents/runtime/orchestration.ts:362-381 | what is counted is the number of wakes that executed and whose closing did not throw |
| `Orchestration.LeasedAmongUniverse` | src/agents/runtime/orchestration.ts:283-303 | each attempt is a session not attempted before, which is why the cycle ends |
| `Orchestration.SkippedInPass` | src/agents/runtime/orchestration.ts:319-380 | a pass skips only sessions it was given for waiting events, with no events waiting any more and no wake due |
| `Orchestration.ExecutedInPass` | src/agents/runtime/orchestration.ts:319-381 | the due wakes of a session that a pass executes are not pending under their ids when its wake ends |
| `Orchestration.RunAgentLoop` | src/agents/runtime/orchestration.ts:149-270 | each stop reason applies exactly in its own case and no earlier cycle gave one; never more cycles than the maximum, ten without one, and any prefix of a watch without a limit; a second look exactly in a watch that was idle too long; the passes follow on each other, each complete, and `executed` is the sum over them |
| `Orchestration.NothingDueLeft` | src/agents/runtime/orchestration.ts:281-303 | after a pass whose last look scanned the journals, every allowed session with a wake due in them was attempted or is leased elsewhere |
| `Orchestration.ResolveWatchSleepMs` | src/agents/runtime/orchestration.ts:464-486 | the longest wait of at least a millisecond that oversleeps no bound |
| `EventStream.FirstSeparatorExtends` | src/agents/providers/codex-model-client.ts:806-814 | text that arrives later does not move a separator already found |
| `EventStream.PiecesExtend` | src/agents/providers/codex-model-client.ts:802-816 | the pieces of a longer stream are the earlier pieces and those of the remainder with the new text |
| `EventStream.Drain` | src/agents/providers/codex-model-client.ts:806-815 | the inner loop yields the events of every complete piece and keeps the remainder |
| `EventStream.ParseServerSentEvents` | src/agents/providers/codex-model-client.ts:789-836 | for every cut into chunks, the events are those of the whole stream split at its leftmost separators |
| `EventStream.PiecesRebuildStream` | src/agents/providers/codex-model-client.ts:806-814 | splitting loses nothing and no piece contains a separator |
| `EventStream.ParseMeans` | src/agents/providers/codex-model-client.ts:838-864 | for every list of lines, the chunk they make parses to json of what exactly the `data:` lines carry, trimmed, in order and joined by line feeds, and to nothing when there are none or the text is empty or the end mark |
| `EventStream.ParseTrims` | src/agents/providers/codex-model-client.ts:839-844 | every chunk, once trimmed, is such a list of lines joined, and trimming it changes nothing |
| `EventStream.FrameParses` | src/agents/providers/codex-model-client.ts:838-864 | a frame of other field lines and one data line per line of the payload parses to the event of the payload |
| `EventStream.FramesRoundTrip` | src/agents/providers/codex-model-client.ts:789-864 | messages sent as frames, with other fields and payloads of any number of lines, come back one event each, in order, however chunked |
| `EventStream.TrailingFrameRead` | src/agents/providers/codex-model-client.ts:789-864 | the same when the stream ends right after the last frame, without a blank line behind it |
| `EventStream.EventsGrow` | src/agents/providers/codex-model-client.ts:802-816 | events yielded so far are a prefix of those of any longer stream |
| `Strings.TrimMeans` | src/agents/providers/codex-model-client.ts:839 | trimming removes spaces only, and leaves none at either end |
| `Strings.SplitOfJoin` | src/agents/providers/codex-model-client.ts:844-853 | splitting undoes joining lines without the separator |
| `Strings.JoinOfSplit` | src/agents/providers/codex-model-client.ts:844-853 | joining undoes splitting, and no part holds the separator |
| `Sorting.FilterAt` | src/agents/providers/codex-model-client.ts:844-847 | filtering keeps exactly the elements that satisfy the test, in order |
| `WriterLedger.WriterApi.constructor` | scripts/readme-writer-pilot.py:40-45 | a new client has sent nothing and has a whole phase to spend |
| `WriterLedger.WriterApi.BeginPhase` | scripts/readme-writer-pilot.py:47-48 | a phase starts at the present count and time and keeps the totals in bounds |
| `WriterLedger.WriterApi.Budget` | scripts/readme-writer-pilot.py:50-55 | admits requests only within both counts and both times; when the counts allow them, refuses only for time |
| `WriterLedger.WriterApi.Get` | scripts/readme-writer-pilot.py:57-60 | at most one request; a normal return leaves the counted bytes within 75 MiB; it raises only for want of requests, time or bytes, for its route or for its answer; an overshoot is one byte and ends all further success |
| `WriterLedger.WriterApi.DownloadArtifact` | scripts/collect-merge-evidence.py:128-167 | at most two requests; counts its bytes only when the archive fits and never overshoots; raises only for want of requests, time or bytes, for its id or for its answers |
| `WriterLedger.WriterApi.RefuseMerge` | scripts/readme-writer-pilot.py:71-80 | admits a PUT only with the right to write, none sent, a full hash, and requests, time and bytes for what follows, and with all these refuses it only for time |
| `WriterLedger.WriterApi.Merge` | scripts/readme-writer-pilot.py:70-111 | sends at most one PUT ever, and not sending it has one of those reasons; afterwards two reads still fit the request budgets; any failure but an explicit rejection reads as unknown |
| `WriterLedger.RouteMeans` | scripts/collect-merge-evidence.py:95-100 | a route is allowed exactly when it lies in the repository, holds no fragment, backslash or control character, and no segment of its path goes up |
| `RetryMetadata.MonotoneTransitive` | scripts/readme-writer-pilot.py:279-294 | the comparison is transitive, with the last workflow, the first job and the only step of an identity |
| `RetryMetadata.ChainIsMonotone` | scripts/readme-writer-pilot.py:321-335 | comparing only neighbours makes every collection monotone towards every later one |
| `RetryMetadata.EndedStepsSurvive` | scripts/readme-writer-pilot.py:289-294 | a step that is completed or has a conclusion is found unchanged in the last collection |
| `RetryMetadata.StepsKeepTheirNames` | scripts/readme-writer-pilot.py:289-292 | every step, ended or not, is found again by its number, alone and under its name |
| `RetryMetadata.SettledProofsSurvive` | scripts/readme-writer-pilot.py:284-287 | verified and platform-managed proofs and receipts are unchanged in the last collection |
| `RetryMetadata.BoundFactsSurvive` | scripts/readme-writer-pilot.py:254-276 | bound facts, rules, rulesets, workflow ids and job facts, those of the platform gate included, are unchanged in the last collection |
| `RetryMetadata.SameIsMonotone` | scripts/readme-writer-pilot.py:279-294 | a collection whose ids are distinct passes the comparison with one that differs only in what is volatile |
| `WriterPilot.Perform` | scripts/collect-merge-evidence.py:95-126 | any sequence of reads keeps the ledger in order and sends no PUT; a normal end is within the byte budget |
| `WriterPilot.Collect` | scripts/readme-writer-pilot.py:322-330 | one collection in its own phase, accepted only if it describes the scope it was made for; fails only for a call or step that raised or a scope that does not fit |
| `WriterPilot.CollectUntilEligible` | scripts/readme-writer-pilot.py:320-347 | at most three collections, the k-th from the k-th attempt, each monotone towards the next, with waits of 30 to 240 seconds; an eligible one keeps all that was settled before; gives up only on the third or on one not worth a retry; each failure has its cause |
| `WriterPilot.RecheckScope` | scripts/readme-writer-pilot.py:348-360 | passes only when scope, base and workflow are reread as they were, and the rules and each ruleset as in the eligible observation, no ruleset to be bypassed; each failure names the reread that raised or differs |
| `WriterPilot.ReconcileMerge` | scripts/readme-writer-pilot.py:297-308 | two reads, of pull request 68 and of the commit it names, no write; reports a merge only of the prepared head, base and tree; right after a PUT only time can refuse them; each failure has its cause |
| `WriterPilot.MergeOnce` | scripts/readme-writer-pilot.py:363-369 | a rejected PUT raises, an unknown one is reconciled; success means a reconciled merge of the given head |
| `WriterPilot.RunPilot` | scripts/readme-writer-pilot.py:311-369 | at most one PUT in any run, to the collected head, only after an eligible report on a snapshot that keeps all that was settled and an equal reread; any other outcome sent nothing; every failure and every giving up has its cause |
| `ContextBuilder.EstimateTokens` | src/agents/sessions/context-builder.ts:8-10 | a quarter of the length, rounded up, and at least one |
| `ContextBuilder.ProtectContinuity` | src/agents/sessions/context-builder.ts:166-180 | the first pass keeps each protected record that fits on those kept before it |
| `ContextBuilder.FillFromNewest` | src/agents/sessions/context-builder.ts:182-196 | the second pass chooses an index exactly when it fits on the protected and the newer chosen ones |
| `ContextBuilder.GreedyIsMaximal` | src/agents/sessions/context-builder.ts:182-196 | nothing that was dropped would still fit |
| `ContextBuilder.GreedyIsUnique` | src/agents/sessions/context-builder.ts:182-196 | the choice is determined by costs, protected records and budget |
| `ContextBuilder.PickWeighs` | src/agents/sessions/context-builder.ts:198-205 | the tokens accounted for are the sum of the selected records' costs |
| `ContextBuilder.PickKeepsOrder` | src/agents/sessions/context-builder.ts:198 | the selection keeps the order of the sorted history |
| `ContextBuilder.PickIsAscending` | src/agents/sessions/context-builder.ts:198 | the selection lists the records of an increasing run of indexes, so records of one timestamp keep their order |
| `ContextBuilder.PickedOfEachKind` | src/agents/sessions/context-builder.ts:199-214 | no more is selected of a kind than there is, so the dropped counts never need their clamp |
| `ContextBuilder.ContinuityIsLastTwo` | src/agents/sessions/context-builder.ts:165-169 | two conversation records are protected, or as many as there are, and none newer is left out |
| `ContextBuilder.SameMomentKeepsOrder` | src/agents/sessions/context-builder.ts:155-157 | records of one moment keep their order, those of the session before the supplemental ones |
| `ContextBuilder.ContinuitySurvives` | src/agents/sessions/context-builder.ts:164-180 | the last two conversation records are both kept exactly when they fit together; the older exactly when it fits; the newest exactly when it fits and the older does not crowd it out |
| `ContextBuilder.BuildSessionContext` | src/agents/sessions/context-builder.ts:146-221 | the selection as a whole: from all the records given, oldest first, within budget, ordered, accounted for, and selected plus dropped is the total for each kind |
| `LoopDirective.WholeSeconds` | src/agents/runtime/loop-directive.ts:99-104 | a positive number rounded down, zero included |
| `LoopDirective.ResolveWake` | src/agents/runtime/loop-directive.ts:93-118 | a wake exactly for a reason and a positive delay; the delay rounded down and cut to a day, the due time that much later; note and key trimmed, and absent exactly when they hold no text |
| `LoopDirective.ResolveQueuedWakes` | src/agents/runtime/loop-directive.ts:83-121 | the first three wakes described, whatever malformed entries stand between or after |
| `LoopDirective.ResolveLoopDirective` | src/agents/runtime/loop-directive.ts:378-428 | throws exactly when a due time is too far off to be printed; otherwise continues exactly when asked to and the counter allows, with a follow-up exactly then |
| `LoopDirective.SessionHarness.constructor` | src/agents/runtime/harness.ts:1009-1015 | a session may start with any counter |
| `LoopDirective.SessionHarness.Run` | src/agents/runtime/harness.ts:908-1107 | over any sequence of turns the counter stays within the maximum, counts the trailing continues, and no longer run of continues occurs; the wakes of a reply are the first three described and, exactly when it continues, a follow-up after the delay asked for; a reply whose due times cannot be printed fails the turn |
| `LoopDirective.SessionHarness.Reply` | src/agents/runtime/harness.ts:1009-1107 | the wakes, counter, outcome and stop reason that a reply persists |
| `LoopDirective.SessionHarness.HandleRunFailure` | src/agents/runtime/harness.ts:1430-1541 | a failure resets the counter and asks for at most one retry, exactly when it is retryable, has a wake and no pending events, under the key of the session and the reason |
| `LoopDirective.RunsWithinNext` | src/agents/runtime/loop-directive.ts:402-407 | one more turn never makes a run of continues longer than the maximum |
| `Grouping.FoldOne` | src/agents/retrieval/pipeline.ts:46-141 | one more candidate changes its own key's entry only |
| `Grouping.FoldGroups` | src/agents/retrieval/pipeline.ts:44-142 | the nested loops over an insertion-ordered map compute, key by key, the merge of that key's candidates alone |
| `Retrieval.MergeEvidence` | src/agents/retrieval/pipeline.ts:76-89 | the inner loop appends exactly the evidence with a new backend and source |
| `Retrieval.WithNewPairsCovers` | src/agents/retrieval/pipeline.ts:76-89 | the result has the pairs of both sides, and repeats one if and only if the prior evidence did |
| `Retrieval.CombineMeans` | src/agents/retrieval/pipeline.ts:74-140 | one more candidate under a key: target and optional facts of the higher score, else the other's facts; the reasons of both, each once; the higher score plus one per piece of evidence after the first; the confidence these are worth |
| `Retrieval.AdmitMeans` | src/agents/retrieval/pipeline.ts:50-71 | the first candidate under a key is kept as it is, with its own evidence when it brings none |
| `Retrieval.MergedEvidence` | src/agents/retrieval/pipeline.ts:64-89 | merged evidence covers exactly the pairs of the inputs, each once if and only if the first input's were |
| `Retrieval.MergedScore` | src/agents/retrieval/pipeline.ts:91-92 | for all inputs the score lies between the best one and that plus one bonus per further input |
| `Retrieval.MergedScoreByPairs` | src/agents/retrieval/pipeline.ts:91-92 | for n evidence-free inputs with e pairs and best score B the score lies in [B, B + (n-1)(e-1)] |
| `Retrieval.MergedKey` | src/agents/retrieval/pipeline.ts:6-14 | a merged candidate still has the key of its inputs |
| `Retrieval.MergedValue` | src/agents/retrieval/pipeline.ts:44-142 | each value of the map is the merge of its key's candidates and carries that key |
| `Retrieval.KeyPartsIdentify` | src/agents/retrieval/pipeline.ts:6-14 | candidates have the same key parts exactly when they point at the same wake, session and event, or text |
| `Retrieval.RankingIsTotal` | src/agents/retrieval/query.ts:295-309 | the ranking is a total preorder in which a candidate may stand before another unless it is outranked, by score, setup, relation and age spelled out |
| `Retrieval.RankRetrievalCandidates` | src/agents/retrieval/query.ts:291-312 | sorts its argument in place, stably, and returns the slice of it |
| `Retrieval.TopK` | src/agents/retrieval/query.ts:291-312 | a true top-k: in order, as many as the limit allows, also a negative one, and nothing dropped outranks anything kept |
| `Retrieval.TiesKeepOrder` | src/agents/retrieval/query.ts:295-311 | candidates of which neither outranks the other keep the order they came in |
| `Retrieval.MergeRetrievalCandidates` | src/agents/retrieval/pipeline.ts:40-145 | one candidate per key, the best of them as the limit and the keys allow |
| `Retrieval.PlainKeysTellApart` | src/agents/retrieval/pipeline.ts:6-14 | for candidates whose identifying parts, all but the last, hold no colon, keys are equal if and only if the parts are |
| `Retrieval.DifferentContentsCanShareKey` | src/agents/retrieval/pipeline.ts:13 | for any three texts, two contents outside that condition that differ and share a key |
| `OutcomeHistory.RecordingKeeps` | src/agents/memory/runtime-memory-store.ts:1085-1122 | recording keeps the history within twelve, without adjacent repeats, and with consecutive iterations per outcome, across replacement and truncation |
| `OutcomeHistory.RecordingMeans` | src/agents/memory/runtime-memory-store.ts:1085-1122 | one record of the input is last, in place of the last entry when that is of the same wake and outcome; of the others the latest eleven stay; its iteration follows the latest of the outcome |
| `OutcomeHistory.RecordingIsIdempotent` | src/agents/memory/runtime-memory-store.ts:1085-1122 | recording the same evaluation twice is recording it once |
| `OutcomeHistory.SameVerdictIsSameWake` | src/agents/memory/runtime-memory-store.ts:1091-1100 | the second half of the replacement test adds nothing to the first |
| `OutcomeHistory.RuntimeMemory.RecordOutcomeEvaluation` | src/agents/memory/runtime-memory-store.ts:389-410 | records only with an active outcome and a checkpoint; the stored history stays well kept over any run |
| `OutcomeHistory.RuntimeMemory.Write` | src/agents/memory/runtime-memory-store.ts:368 | a new checkpoint carries the history over |
| `OutcomeHistory.TruncationCommutes` | src/agents/memory/runtime-memory-store.ts:699-710 | truncating before an id is removed loses nothing that is kept afterwards |
| `OutcomeHistory.ByLastUseMeans` | src/agents/memory/runtime-memory-store.ts:699-710 | each command stands with its last record, by the time of its last use, the most recent first |
| `OutcomeHistory.RecentCommandsAreMostRecent` | src/agents/memory/runtime-memory-store.ts:699-710 | after any run of commands the five kept are the five most recently used of the whole run |
| `OutcomeGate.UpdatedAt` | src/agents/sessions/session-traces.ts:93-108 | the latest time among a wake's events, which one of them has |
| `OutcomeGate.TraceIsLatest` | src/agents/sessions/session-traces.ts:76-112 | the first trace is of a wake that no other wake's events postdate |
| `OutcomeGate.FoundIsLatest` | src/agents/outcomes/outcome-evaluate.ts:144-158 | sorting a wake's events and searching backwards finds the latest one, the last among equals |
| `OutcomeGate.LastOfSorted` | src/agents/outcomes/outcome-evaluate.ts:155-157 | the last event of the stable sort is the latest one found by a scan without sorting |
| `OutcomeGate.ActiveOutcomeMeans` | src/agents/outcomes/outcome-grade.ts:21-32 | the active outcome is that of the last event that defines one, and the checkpoint's only when none does |
| `OutcomeGate.SearchableMeans` | src/agents/outcomes/outcome-grade.ts:125-137 | what is searched is the summary, state, buffer and last message of the agent, those that hold text, one per line |
| `OutcomeGate.LatestWakeMeans` | src/agents/outcomes/outcome-evaluate.ts:144-154 | the latest wake is the one on record, or else the one with the newest event, of several the one named first |
| `OutcomeGate.GradeMeans` | src/agents/outcomes/outcome-grade.ts:34-212 | each grade has its own condition on the session's records |
| `OutcomeGate.DoneCandidateMeans` | src/agents/outcomes/outcome-grade.ts:34-193 | a done candidate exactly when an outcome is active, nothing is awaited, the session is idle and every criterion that holds text, of which there is one, is met |
| `OutcomeGate.PassMeansWakeEndedWell` | src/agents/outcomes/outcome-evaluate.ts:195-322 | a done candidate fails on a failed tool of the latest wake, passes exactly when that wake's last completion succeeded and its last idle was plain without one, and is uncertain otherwise |
| `OutcomeGate.EvaluationMeans` | src/agents/outcomes/outcome-evaluate.ts:324-405 | each status of an evaluation has its own condition on the session's records, and only a pass is ready for promotion |
| `OutcomeGate.PromotionReadyIffSafe` | src/agents/outcomes/outcome-evaluate.ts:324-405 | promotion is ready if and only if everything it depends on holds of the session's records, across grade, evaluation and guard, and if and only if the status is pass |
| `OutcomeGate.PostureOrder` | src/agents/outcomes/outcome-evaluate.ts:22-37 | the statuses rank missing, fail, blocked, not ready, uncertain, pass, and readiness is worth one step |
| `OutcomeGate.TrendMeans` | src/agents/outcomes/outcome-evaluate.ts:81-119 | the trend compares with the latest evaluation on record of the same outcome |
| `OutcomeGate.GuardedTrendIsHonest` | src/agents/outcomes/outcome-evaluate.ts:39-79 | exactly when the trend still fits the status that the guard lowered |
| `OutcomeGate.PassingIsSafe` | src/agents/outcomes/outcome-evaluate.ts:324-405 | a session that is safe to promote, after an evaluation that was not ready |
| `OutcomeGate.GuardedTrendCanMislead` | src/agents/outcomes/outcome-evaluate.ts:81-118 | from that session, a busy shell gives the earlier status back and the trend calls it an improvement |
| `CliRunQueue.Reachable` | src/agents/backends/claude-cli-runner.ts:24-43 | every reachable state links each call to the last earlier one of its key |
| `CliRunQueue.StartedAfterReleases` | src/agents/backends/claude-cli-runner.ts:31-36 | a call starts only after every earlier call of its key has released |
| `CliRunQueue.OneAtATimeInOrder` | src/agents/backends/claude-cli-runner.ts:24-43 | under every interleaving, with tasks that may throw, one task per key runs at a time, in call order |
| `CliRunQueue.QueueMovesOn` | src/agents/backends/claude-cli-runner.ts:24-43 | while a call waits, some step of an earlier or the same call of its key is enabled |
| `CliRunQueue.StepsUseUpWork` | src/agents/backends/claude-cli-runner.ts:24-43 | every step but a new call uses up work, so a waiting call's turn comes |
| `CliRunQueue.EntriesAreNeverDeleted` | src/agents/backends/claude-cli-runner.ts:39-41 | the comparison before the deletion never succeeds and the map keeps every key it has seen |

## Left out

- Files, directories, JSON encoding, atomic renames, event emitters, `fsWatch`, UUIDs: journals are sequences, ids are fresh numbers, an append is one step.
- The exclusion of the index lock file, whose stale-lock removal is not atomic: one holder at a time is assumed, and a timeout is a step of its own.
- Index entries without a due time, as older versions wrote them.
- Time strings and their parsing: times are integers, and an unparsable time is not modelled.
- `localeCompare` on ids: only that it is a total order matters, so ids are their ranks.
- More than one agent: every class is one agent's queue, journal or session.
- The session store: whether a lease is acquired, which sessions are runnable, backoff and reconciliation are parameters of each look.
- `runSessionLoop` (src/agents/runtime/wake-session.ts:384-440) and the cycle's `onSkip` and `onActivity` reports: counters and notifications around what is modelled.
- `peekNextReadyAt` and `waitForChange` of the activation queue: waiting only.
- Lease renewal on a timer: a failed renewal is a value of the environment of one wake.
- Reads of sessions and journals that fail in the middle of a wake, and a store whose release throws: both need a failing file system.
- ActivationQueue.LeaseNextActivation: does not model an append to the activation journal that fails while leasing; the lease just acquired is then held until it is stale, and the cycle throws.
- Orchestration.ExecuteReadyActivationsForCycle: for the same reason promises only that the leases whose claims were recorded are closed.
- WakeRefinement.ListAlone: the batches are a map, without their order and next due times, because the protocol takes the index as a map; `SessionWakeQueues.SessionWakeQueue.ListDueSessionWakes` states both.
- Wakes in a run whose harness swallows a provider failure and returns normally: they stay completed, as the harness asks for its own retry.
- WakeSession.ConsumeForWake: does not promise that prefetched wakes are still pending, because the source completes and returns them unchecked.
- WakeProtocol.SettledWakesAreIndexed: claims membership and a due time of some enqueued wake, not the earliest one, because racing enqueues can leave a later one.
- WakeProtocol.DiscoveryFindsSettledWakes: claims a session's wakes only once all its enqueued due times have passed, for the same reason.
- EventStream.ParseServerSentEvents: starts from characters; the incremental byte decoder and the reader's cancellation are not modelled, and JSON parsing is a parameter.
- Text lengths in UTF-16 units: a Dafny string has one element per character.
- WriterLedger.WriterApi.Get: does not decode JSON; a reply says whether its body decodes.
- The route and response schema checks beyond the ones named, the redirect handler, and the check that the read-only credential is unchanged.
- `retryable_metadata` and the evaluator of the writer, and the checks of trees and blobs inside a scope: parameters of the run.
- Rendering of history records from events, runtime notes, summaries, learnings and prompts.
- Retrieval expansions (`makeSetupAwareExpansion`) and the text scoring behind criteria and candidates.
- Suggested next tools, evidence texts and summaries of grades and evaluations.
- Timestamps and scores that are not numbers, which the comparators treat as equal to everything.
- `SessionHarness` models the checkpoint and the queued wakes of a turn, not the provider call, tools or events.
