# mailflow, modelled in Dafny

mailflow fetches mail from a provider, claims each message, filters and extracts it,
emits it once, and moves a cursor behind it.  Messages that cannot be handled go to a
dead-letter sink and a durable store, from which they can be replayed.  This project
models that protocol and what surrounds it, and proves what the repository promises about
whole runs, about many workers and about replays.

`dafny verify dfyconfig.toml` checks everything.

## How the model is laid out

The pipeline is modelled twice.

*As objects.*  `Pipelines.Pipeline`, the stores of `MemoryStores` and `SqlStores`, the
report of `Observability`, the providers, the runtimes, the mail client and the MIME walk
are classes whose methods update fields in place, loop for loop as the code does.  Every
method is proved equal to a function of the state before; those functions (`Delivery` for
the pipeline) are what the theorems are about.  The outside world is an adversary: a
`World` answers the n-th visit to a message with any combination of values and exceptions,
so each theorem holds for every failure schedule.  Four calls can raise past the pipeline
(`message_size`, `force_refresh`, the dead-letter emitter and the dead-letter store); a
step that ends so is `Escaped` and leaves its claim held.

*As interleavings.*  `Workers` is a step relation for any number of workers with program
counters and clocks of their own over one claim store: every step can be separated from the
next by other workers, by time, by a crash or by a purge.  `Schedules` proves that a visit by
the pipeline of the first model is a schedule of the second, and `RunSchedules` the same of
whole histories of runs.

*Over leased claims.*  `Leases` runs the same pipeline over a claim table with a clock that
goes on, visit by visit and between runs; `LeasedRuns` proves that such a run is one of the
first model from the store without its lapsed claims.

*From the outside.*  `Contents`, `GraphContents`, `RedriveReports`, `SubjectWords` and the last
parts of `Mime` and `GmailClient` say what is sent, fetched, reported, kept or answered in terms
of what the adversary answered, field by field and status by status, and prove that the
functions of the model do just that.

| files | subject |
|---|---|
| `Models`, `Identity`, `FilterChain`, `Observability`, `MemoryStores` | values, keys, filter chain, report, in-memory stores |
| `Delivery`, `Pipeline`, `Scenarios` | one message, one stream, one run: functions and objects; worlds used as witnesses |
| `Visits`, `VisitTrails`, `Contents`, `Runs`, `LowWater`, `LowWaterHistories`, `HeldClaims`, `Escapes`, `Convergence`, `Tightness`, `Outcomes`, `Strips`, `TagDrop` | theorems about runs and sequences of runs |
| `ClaimMachine`, `SqlStores`, `DedupeRefinement` | the claim store: abstract machine, SQL forms, in-memory form |
| `Workers`, `Schedules`, `RunSchedules` | many workers, crashes and leases; the pipeline as one of them |
| `Leases`, `LeasedRuns`, `LeasedLowWater`, `Recoveries` | the pipeline over leased claims, with time passing |
| `Providers`, `Seeds`, `SharedSlots`, `Redrive`, `RedriveReports`, `Graph`, `GraphContents`, `GraphRuns`, `Runtimes`, `Redelivery`, `SweptMail`, `PassedEvents` | providers, replay, settlement of transport messages |
| `Base64`, `Whitespace`, `Streaming`, `Mime`, `Subject`, `SubjectWords` | encodings, attachments, thread keys |
| `GmailClient` | the request loop |

## Where the code does not do what its text says

The model follows the code, and says in theorems what that means.

- A dead-letter store that raises is said to leave the message reclaimable
  (`src/mailflow/core/pipeline.py:349-352`).  With the in-memory claims it stays claimed: the
  next smooth run moves the cursor past it (`HeldClaims.EscapeIsPassed`) and no later run
  ever delivers it (`Escapes.HeldForever`, `Escapes.StoreDownLoses`).  Which visits and runs
  can end so is exact in `Escapes.EscapesExactly` and `Escapes.SomeRunEscapesExactly`.  With
  the leased stores the claim can be won again once its lease is over, but whether the message
  is still fetched then depends on when runs start.  A run inside the lease takes the refused
  claim for a duplicate and moves the cursor past the message for good
  (`LeasedLowWater.EscapeIsPassedExactly`, `Recoveries.HeldComesBackExactly`,
  `Recoveries.StoreDownComesBackExactly`); runs that start a lease apart lose nothing
  (`LeasedLowWater.SpacedRunsKeepLowWater`).
- Redrive is said to delete records that reach a terminal disposition
  (`src/mailflow/core/redrive.py:5-6`).  It also deletes a record whose replay was left
  pending; `Redrive.DeletionIsSafeExactly` says exactly when that can happen, and
  `Redrive.AllTerminalWouldTell` that `all_terminal` would have told.
- `_accumulate` is to be kept in sync with the report
  (`src/mailflow/core/redrive.py:80`) but leaves the strip fields out:
  `Redrive.RedriveAccounts`.
- The Event Hubs runtime is said to leave a failed event for redelivery
  (`src/mailflow/adapters/graph/runtime.py:4-5`).  A later event that settles moves the
  checkpoint past it.  `PassedEvents.HeldIsRedeliveredExactly` says for which configurations
  and batches that can happen, and `PassedEvents.PassedEventIsLost` what is lost then.
- A requested sweep is there to recover missed notifications
  (`src/mailflow/adapters/graph/provider.py:43-45`).  The request leaves the queue before its
  listing is asked for, and the message that made it is completed before that
  (`Graph.RequestsSurviveExactly`, `Runtimes.SweepRequestIsLost`).  Mail that a sweep brings in
  and that is left pending is not tried again when the message it came with is delivered again
  (`SweptMail.SweptMailEndsExactly`, `SweptMail.SweptMailIsLost`), and the first terminal mail
  of a listing moves the resume token behind all of it (`SweptMail.FirstMovesToken`).
- Cursors are kept for each stream (`src/mailflow/stores/memory.py:15`), but by a key that
  two streams can share (`src/mailflow/core/models.py:88-90`).  `SharedSlots.KeysShareExactly`
  says which, and `Seeds.SeedsConvergeExactly` that convergence then fails, and only then.
- The SQLite claim store's first paragraph says leases do not expire
  (`src/mailflow/stores/sqlite.py:93-94`); its code, and the text further down, let them
  expire, and so does the model.
- The message key does not say which part a separator belongs to; `Identity` has the
  exact condition under which it is unambiguous.

## Model

| member | source | states |
|---|---|---|
| `Identity.KeyIsInjective` | src/mailflow/core/identity.py:15-18 | two arrivals share a key only if tenant, mailbox and message id agree, whenever tenants and mailboxes hold no separator |
| `Identity.KeyIsUnsharedExactly` | src/mailflow/core/identity.py:15-18 | over all triples, a key is shared with no other triple if and only if none of its three parts holds the separator |
| `FilterChain.FirstToStopDecides` | src/mailflow/filters/chain.py:14-19 | the first filter that decides or raises is the answer, whatever later filters would say; otherwise undecided |
| `FilterChain.Ask` | src/mailflow/filters/chain.py:14-19 | the loop over the filters gives the chain's answer |
| `Observability.RunReport.Record` | src/mailflow/core/observability.py:81-92 | appends the trace and counts it, except dead letters |
| `Observability.RunReport.RecordStripped` | src/mailflow/core/observability.py:94-103 | appends the strip and touches none of the disposition counters |
| `Observability.RunReport.AddDeadLetter` | src/mailflow/core/observability.py:105-107 | appends and counts the dead letter |
| `Observability.TerminalIsTraced` | src/mailflow/core/observability.py:81-107 | with consistent counters, the terminal count is the number of traces |
| `MemoryStores.InMemoryCursorStore.CommitIfAhead` | src/mailflow/stores/memory.py:26-32 | moves the cursor forward only and says whether it moved |
| `MemoryStores.CommitsKeepTheGreatest` | src/mailflow/stores/memory.py:26-32 | any sequence of commits leaves the greatest order offered or held, and no other slot changes |
| `MemoryStores.InMemoryDedupeStore.TryClaim` | src/mailflow/stores/memory.py:63-71 | wins exactly when the key is neither claimed nor done; the lease is ignored |
| `MemoryStores.InMemoryDedupeStore.RecordAttempt` | src/mailflow/stores/memory.py:73-76 | counts one more attempt; a missing key is created claimed |
| `MemoryStores.InMemoryDedupeStore.MarkDone` | src/mailflow/stores/memory.py:78-81 | marks done with an expiry and keeps the attempts |
| `MemoryStores.InMemoryDedupeStore.Release` | src/mailflow/stores/memory.py:83-86 | frees an undone claim and keeps its attempts |
| `MemoryStores.InMemoryDedupeStore.PurgeExpired` | src/mailflow/stores/memory.py:88-99 | removes exactly the done records whose expiry has passed, and counts them |
| `MemoryStores.InMemoryDeadLetterStore.PutRecord` | src/mailflow/stores/memory.py:109-110 | overwrites under the record's id in place, or appends |
| `MemoryStores.PutStores` | src/mailflow/stores/memory.py:109-110 | the record is stored, every other id's record is as it was, ids stay unique |
| `Redrive.RedriveWithinLimit` | src/mailflow/stores/memory.py:112-114 | a listing with a limit shows that many records, and a redrive over it leaves all others in the store as they are, behind what it keeps of those |
| `MemoryStores.InMemoryDeadLetterStore.Delete` | src/mailflow/stores/memory.py:116-117 | removes that id |
| `MemoryStores.WithoutRemoves` | src/mailflow/stores/memory.py:116-117 | deleting an id removes its record and nothing else |
| `Pipelines.Pipeline.DoWork` | src/mailflow/core/pipeline.py:224-279 | the work body does to stores, log and report exactly what its specification says, at each of its failure points |
| `Pipelines.Pipeline.HandleAuthError` | src/mailflow/core/pipeline.py:281-301 | one refresh, one more work body, then the dead-letter path |
| `Pipelines.Pipeline.RetryOrDeadLetterMessage` | src/mailflow/core/pipeline.py:303-314 | released and pending below the attempt bound, dead-lettered at it |
| `Pipelines.Pipeline.DeadLetterMessage` | src/mailflow/core/pipeline.py:337-366 | sink, durable record, claim, report, in that order; an exception stops before the claim is marked |
| `Pipelines.Pipeline.WorkOrRoute` | src/mailflow/core/pipeline.py:190-222 | size guard, work body, and one route for each error family |
| `Pipelines.Pipeline.Process` | src/mailflow/core/pipeline.py:173-222 | claim, attempt, size guard, work body and error routing of one message |
| `Pipelines.Pipeline.RunStream` | src/mailflow/core/pipeline.py:157-171 | the stream loop with its blocked flag equals its recursive specification, and counts the messages it took |
| `Pipelines.Pipeline.RunOnce` | src/mailflow/core/pipeline.py:140-155 | a fresh report, then every stream in turn, until an exception leaves one |
| `Visits.EveryVisit` | src/mailflow/core/pipeline.py:173-366 | whatever is answered: only the visited claim moves; duplicate if and only if the claim was lost; each step leaves its claim done, free or held, its one trace or none, and its event or record |
| `Contents.EveryVisitSays` | src/mailflow/core/pipeline.py:190-396 | an event emitted carries what the work body that succeeded extracted, its relevance where a classifier was asked, and the tag of the first deciding filter, under the message's tenant, mailbox and key; a trace gives the stage, filter and reason the answers call for; a dead letter is sunk, reported and recorded with that reason, the attempt and the time, and its record holds every field of the message |
| `Contents.EveryRunSays` | src/mailflow/core/pipeline.py:140-171 | over any run, every event and every trace is that of one visit to a message of the feed, in the order of the visits, and says what that visit was answered |
| `VisitTrails.VisitLeads` | src/mailflow/core/pipeline.py:173-366 | the states inside a visit, one for each call to a store, a sink, the emitter or the report, lead call by call from its start to its end |
| `Strips.StripsMatchExactly` | src/mailflow/core/pipeline.py:255-273 | over any run, the strips on record are those of the mail emitted, in order, if and only if no emit raised on an event with strips; they always number those of emitted and refused events together |
| `Runs.RunAccounting` | src/mailflow/core/pipeline.py:140-171 | fetched less the four counters is the number of pending messages (and the escaped one), counters equal traces, and all-terminal holds if and only if nothing is pending or escaped |
| `LowWater.LowWaterMark` | src/mailflow/core/pipeline.py:157-171 | in every state of any run from quiescent stores, at each message boundary, before each move of a cursor and after each call inside a visit, everything at or behind a cursor is done, cursors never move back and done stays done; quiescence survives exactly the runs nothing escapes |
| `LowWaterHistories.HistoryKeepsLowWater` | src/mailflow/core/pipeline.py:140-171 | and before every run of a history in which no run has escaped |
| `LowWaterHistories.HistoryTrailsKeepLowWater` | src/mailflow/core/pipeline.py:140-171 | and in every state of the run that follows, even if that one escapes |
| `LowWaterHistories.ArrivalsKeepLowWater` | src/mailflow/core/pipeline.py:140-171 | while mail keeps arriving between runs none of which escapes, it holds before every run for all mail, arrived or not |
| `HeldClaims.LowWaterExactly` | src/mailflow/core/pipeline.py:184-186 | the low-water mark survives the next run under every world if and only if no message is held at its start |
| `HeldClaims.EscapeIsPassed` | src/mailflow/core/pipeline.py:349-358 | an exception leaves a run if and only if the next smooth run moves the cursor past an undone message |
| `Escapes.EscapesExactly` | src/mailflow/core/pipeline.py:186-360 | an exception leaves a visit if and only if its claim was won and the size call raises, or the refresh, or the sink or durable store, on the branch that makes that call; the branch is told by the first failure among the calls of the work bodies |
| `Escapes.SomeRunEscapesExactly` | src/mailflow/core/pipeline.py:140-171 | some world lets an exception out of a run if and only if the run fetches a message that could be claimed when it starts |
| `Escapes.HeldForever` | src/mailflow/stores/memory.py:63-71 | with in-memory claims a held message is never emitted or recorded in any later runs, over any feeds and in any worlds |
| `Escapes.StoreDownLoses` | src/mailflow/core/pipeline.py:353-360 | a durable store that is down once, for one rejected message, is such an escape, and the message is lost to every later history |
| `Convergence.RetriesConverge` | src/mailflow/core/pipeline.py:303-314 | over any feed with unshared cursor slots, after max(1, max_attempts) runs or more, whatever the work does, every message is done, the last report is all terminal, and each cursor stands at its last message |
| `Convergence.StreamSettles` | src/mailflow/core/pipeline.py:157-171 | a stream none of whose messages is held and whose run leaves nothing pending has all its messages done |
| `Tightness.FewerRunsAreNotEnough` | src/mailflow/core/pipeline.py:303-314 | for every smaller number of runs there is a message still undone, so the bound is exact |
| `Outcomes.OneOutcomeEach` | src/mailflow/core/pipeline.py:173-279 | over any sequence of runs over any feeds, emitted, dropped and dead-lettered keys are disjoint, unrepeated, and together exactly the done keys; the emitter log and the durable store list exactly theirs |
| `Outcomes.LogIsFirstOccurrences` | src/mailflow/core/pipeline.py:182-188 | with no failure and no drop, a run emits exactly the first occurrences of the keys it fetches that were not taken, in order |
| `TagDrop.TagSimulatesDrop` | src/mailflow/core/pipeline.py:229-253 | over any runs, tagging and dropping leave equal claims, cursors and dead letters; the untagged events are the dropping side's events in order, the tagged ones its dropped messages with filter and reason |
| `ClaimMachine.DoneAbsorbs` | src/mailflow/stores/sqlite.py:138-185 | on every trace without a purge, a done key stays done and is never won, and attempts never decrease |
| `ClaimMachine.WonClaimsAreALeaseApart` | src/mailflow/stores/sqlite.py:138-157 | two won claims of a key with no release or purge between them are at least a lease apart, whatever the clocks do |
| `ClaimMachine.AbandonedClaimComesBack` | src/mailflow/stores/sqlite.py:107-112 | the row of an abandoned claim can be won again if and only if its lease is over; whether a run still asks for it is the subject of `Recoveries` |
| `Leases.VisitIsATrace` | src/mailflow/stores/sqlite.py:138-185 | a visit over leased claims is a trace of the claim machine's operations: claim, attempt, then done, release or nothing; the claim is granted if and only if the visit is no duplicate |
| `LeasedRuns.LeasedRunIsARun` | src/mailflow/core/pipeline.py:140-186 | a run over leased claims does, step for step, what a run over plain claims does from the store without the claims that have lapsed when it starts, as long as no lease on its messages ends while it is under way |
| `LeasedLowWater.LeasedLowWaterExactly` | src/mailflow/core/pipeline.py:184-186 | the low-water mark survives a run that starts at a given time, in every world and however its clock goes on, if and only if no message of the feed is held within its lease then |
| `LeasedLowWater.SmoothRunPassesExactly` | src/mailflow/core/pipeline.py:184-186 | a smooth run, during which no lease on its messages ends, keeps the mark if and only if none runs when it starts |
| `LeasedLowWater.EscapeIsPassedExactly` | src/mailflow/core/pipeline.py:349-358 | an exception that leaves a run at one time costs the mark on the next smooth run at another if and only if that one starts within the lease |
| `LeasedLowWater.SpacedRunsKeepLowWater` | src/mailflow/stores/sqlite.py:104-112 | if every run starts a lease after the one before it ended, the mark holds before every run of every history, whatever escapes |
| `Recoveries.HeldComesBackExactly` | src/mailflow/core/pipeline.py:349-352 | over any smooth runs of arriving mail, a message left held is ended (emitted, dropped or dead-lettered, with its trace) if and only if some run fetches it and none that does starts within its lease; otherwise it stays held as it was, and once fetched it is never fetched again |
| `Recoveries.StoreDownComesBackExactly` | src/mailflow/core/pipeline.py:353-360 | after a durable store was down for one rejected message, later smooth runs end it if and only if the first of them starts a lease after the failure |
| `SqlStores.SqliteDedupeStore.TryClaim` | src/mailflow/stores/sqlite.py:138-157 | insert-or-ignore, then guarded update, is the machine's claim |
| `SqlStores.SqliteDedupeStore.RecordAttempt` | src/mailflow/stores/sqlite.py:159-169 | a missing key is created unclaimed; the new count is returned |
| `SqlStores.SqliteDedupeStore.MarkDone` | src/mailflow/stores/sqlite.py:171-178 | insert-or-ignore, then update, is the machine's completion |
| `SqlStores.SqliteDedupeStore.Release` | src/mailflow/stores/sqlite.py:180-185 | clears the claim of an undone row only |
| `SqlStores.SqliteDedupeStore.PurgeExpired` | src/mailflow/stores/sqlite.py:187-198 | deletes exactly the expired done rows and counts them |
| `SqlStores.SqliteDedupeStore.PerformAll` | src/mailflow/stores/sqlite.py:138-198 | every trace of operations gets the machine's replies and ends in its state |
| `SqlStores.PostgresDedupeStore.TryClaim` | src/mailflow/stores/postgres.py:109-123 | the single upsert is the machine's claim |
| `SqlStores.PostgresDedupeStore.RecordAttempt` | src/mailflow/stores/postgres.py:125-135 | a missing key is created unclaimed; the new count is returned |
| `SqlStores.PostgresDedupeStore.MarkDone` | src/mailflow/stores/postgres.py:137-144 | the upsert is the machine's completion |
| `SqlStores.PostgresDedupeStore.Release` | src/mailflow/stores/postgres.py:146-150 | clears the claim of an undone row only |
| `SqlStores.PostgresDedupeStore.PurgeExpired` | src/mailflow/stores/postgres.py:152-162 | deletes exactly the expired done rows and counts them |
| `SqlStores.PostgresDedupeStore.PerformAll` | src/mailflow/stores/postgres.py:109-162 | every trace of operations gets the machine's replies and ends in its state |
| `SqlStores.SqliteCursorStore.CommitIfAhead` | src/mailflow/stores/sqlite.py:72-87 | select, compare, upsert agree with the in-memory cursor store |
| `SqlStores.PostgresCursorStore.CommitIfAhead` | src/mailflow/stores/postgres.py:74-82 | the guarded upsert agrees with the in-memory cursor store |
| `DedupeRefinement.Perform` | src/mailflow/stores/memory.py:63-99 | any operation on the in-memory store answers and updates as specified |
| `DedupeRefinement.AgreeExactly` | src/mailflow/stores/memory.py:63-99 | the in-memory store and the machine agree on an operation if and only if it neither claims a lapsed lease nor records an attempt on a missing key |
| `DedupeRefinement.TracesAgree` | src/mailflow/stores/memory.py:63-99 | on every trace that claims first and lets no lease lapse, in-memory and SQL stores give equal replies |
| `Workers.NothingIsLost` | src/mailflow/core/pipeline.py:337-360 | under every interleaving, stall, crash, escape, lease expiry and purge: a done key was emitted, filtered out, or sunk and (with a durable store) recorded first |
| `Workers.UndoneIsDeliverable` | src/mailflow/stores/sqlite.py:104-112 | as far as the claim store goes: after any run at all, an undone key can be won and delivered by any idle worker that begins on it after one lease and twice the clocks' skew; cursors are the subject of `Recoveries` |
| `Workers.OneOwnerAtATime` | src/mailflow/stores/sqlite.py:138-157 | when owners stay in their leases by every worker's clock, one worker at most owns a key, whoever crashes and whatever is purged |
| `Workers.EmittedAtMostOnce` | src/mailflow/core/pipeline.py:273-274 | when moreover none crashes between emit and done and no emitted key is purged, each key is emitted at most once, in every interleaving |
| `Workers.OneOutcomeAtMost` | src/mailflow/core/pipeline.py:229-366 | with no crash after any outcome and no such key purged, a key is emitted, dropped or sunk at most once in all |
| `Workers.StallEmitsTwice` | src/mailflow/stores/sqlite.py:150-155 | a worker that outlives its lease makes a key go out twice without any crash |
| `Workers.CrashEmitsTwice` | src/mailflow/core/pipeline.py:273-274 | a crash between emit and done makes a key go out twice |
| `Workers.PurgeEmitsTwice` | src/mailflow/stores/sqlite.py:187-198 | so does a purge of a delivered key whose message comes again |
| `Schedules.VisitIsASchedule` | src/mailflow/core/pipeline.py:173-366 | every visit of the pipeline, escapes included, is a schedule of the worker machine with the same claims and outcomes, as long as no lease on the visited key has lapsed |
| `RunSchedules.HistoryIsASchedule` | src/mailflow/core/pipeline.py:140-171 | every history of runs from empty stores is one worker's schedule on a standing clock, under a positive lease, and the pipeline's logs show every outcome |
| `RunSchedules.HistoryLosesNothing` | src/mailflow/core/pipeline.py:337-360 | so it inherits `NothingIsLost`: a done message was emitted, dropped, or recorded durably (sunk where there is no durable store) |
| `Providers.MemoryProvider.Fetch` | src/mailflow/providers/memory.py:33-46 | the loop yields exactly the messages behind the cursor |
| `Providers.SeededMessageSays` | src/mailflow/providers/memory.py:33-46 | the i-th message of a mailbox has the identifier, bytes, size and time of the i-th mail of its seed, and a cursor numbered i + 1 |
| `Providers.RunOnce` | src/mailflow/core/pipeline.py:140-155 | a run over the provider, stream by stream from behind each cursor, is a run over its seed as a feed |
| `SharedSlots.KeysShareExactly` | src/mailflow/core/models.py:85-90 | two streams share a cursor slot if and only if they differ at most in no folder against an empty one, or one mailbox continues the other by a colon and the start of its folder |
| `SharedSlots.ColonFreeMailboxesDoNotNest` | src/mailflow/core/models.py:85-90 | mailboxes without a colon share a slot only by an empty folder |
| `SharedSlots.ShadowedIsLost` | src/mailflow/providers/memory.py:33-46 | in a shared slot, a message behind the earlier stream's cursor stays undone through any number of smooth runs |
| `Seeds.SeedIsWellFed` | src/mailflow/providers/memory.py:33-46 | a seed's cursors grow strictly, and no slot is shared by two streams with messages exactly where their keys differ |
| `Seeds.SeedConverges` | src/mailflow/providers/memory.py:33-46 | from empty stores, a seed with unshared slots is settled in max(1, max_attempts) runs and each cursor ends at the stream's length |
| `Seeds.SeedsConvergeExactly` | src/mailflow/providers/memory.py:33-46 | for given streams and numbers of messages, all contents converge in all obliging worlds if and only if no two streams with messages share a key |
| `Seeds.SeedsKeepLowWaterExactly` | src/mailflow/providers/memory.py:33-46 | and a run keeps the low-water mark for all contents and worlds on the same condition |
| `Seeds.TwoStreamsShareASlot` | src/mailflow/providers/memory.py:33-46 | mailbox `a:b` and folder `b` of mailbox `a`, one message each: the second is never fetched |
| `Base64.RoundTrip` | src/mailflow/core/pipeline.py:389-389 | decoding what was encoded (section 4 of RFC 4648) gives back every byte, whatever the padding |
| `Base64.EncodeSpells` | src/mailflow/core/pipeline.py:389-389 | each four characters are the base-64 digits of the number three bytes make, padded where bytes are missing |
| `Base64.DecodeSplits` | src/mailflow/extract/streaming.py:52-56 | decoding is a homomorphism at every quantum boundary |
| `Redrive.DeadLetterRoundTrip` | src/mailflow/core/redrive.py:43-53 | rebuilding a dead letter gives exactly the original message, whose key is the record's id |
| `Redrive.Redrive` | src/mailflow/core/redrive.py:92-135 | the loop over fresh pipelines does to store, emitters and report exactly what its specification says |
| `Redrive.ReplayEnds` | src/mailflow/core/redrive.py:56-76 | a replay is one visit, never a duplicate, pending only above one attempt; what its report then counts |
| `Redrive.RedriveAccounts` | src/mailflow/core/redrive.py:79-135 | examined = resubmitted + still dead-lettered = fetched; dead-lettered agrees; strips never reach the merged report |
| `RedriveReports.RebuildSays` | src/mailflow/core/redrive.py:43-53 | any record is rebuilt field for field, its bytes those its text stands for, unless the decoder refuses the text |
| `RedriveReports.RefusedRecordStops` | src/mailflow/core/redrive.py:111-135 | a record whose text is refused ends the redrive: it and all behind it are left in the store |
| `RedriveReports.RedriveReportsItsTraces` | src/mailflow/core/redrive.py:79-89 | the merged report lists exactly the traces of the replays, in order; its emitted, dropped, duplicate and dead-lettered counters count them, and its dead letters are theirs |
| `RedriveReports.ReplayOnlySends` | src/mailflow/core/redrive.py:114-127 | a replay asks for no refresh and keeps no record: it is the same whatever those would have answered |
| `Redrive.StoreLosesTheResubmitted` | src/mailflow/core/redrive.py:128-134 | the store afterwards is the store before, in order, less exactly the resubmitted records; all others unchanged |
| `Redrive.DeletedWereDelivered` | src/mailflow/core/redrive.py:130-132 | with at most one attempt, every deleted record was emitted under its own id or filtered out, even if the redrive was cut short |
| `Redrive.DeletionIsSafeExactly` | src/mailflow/core/redrive.py:130-132 | for every world a deletion means delivered if and only if one attempt is the limit or the size guard stops the message |
| `Redrive.AllTerminalWouldTell` | src/mailflow/core/redrive.py:130-132 | for one replay the deletion rule is right if and only if the run's report is all terminal |
| `Graph.GraphProvider.ListStreams` | src/mailflow/adapters/graph/provider.py:61-70 | the streams of notes, then of sweeps, each once |
| `Graph.GraphProvider.LookUp` | src/mailflow/adapters/graph/provider.py:72-81 | the stream's notes looked up in order, up to the first that raises; what the messages carry is the subject of `GraphContents` |
| `Graph.GraphProvider.Sweep` | src/mailflow/adapters/graph/provider.py:88-116 | the delta listing as messages, up to the first that raises; what they carry is the subject of `GraphContents` |
| `Graph.GraphProvider.Drain` | src/mailflow/adapters/graph/provider.py:82-85 | a stream's notes leave the queue once the consumer asks beyond the last of them |
| `GraphContents.StreamsComeInTurn` | src/mailflow/adapters/graph/provider.py:61-70 | the streams listed come in the order in which they first stand in the queue, notes before sweeps |
| `GraphContents.EveryFetchSays` | src/mailflow/adapters/graph/provider.py:72-116 | over any run, stream by stream, the messages fetched are the mails the server answered with, notes before the listing, one each and in order: same identifier, bytes, thread and time, the size of the bytes, the stream fetched, cursors counting on by one; all of them, but for the rest of a listing in which a run ended by exception |
| `GraphContents.ListingResumes` | src/mailflow/adapters/graph/provider.py:94-104 | a listing is asked for from the committed cursor if and only if that is a link, and from the start otherwise |
| `Graph.RunOneStream` | src/mailflow/core/pipeline.py:157-171 | one stream of a run over the queue, fetch failures included |
| `Graph.RunOnce` | src/mailflow/core/pipeline.py:140-155 | a run over the queue, stream after stream |
| `Graph.StreamsAreThoseWaiting` | src/mailflow/adapters/graph/provider.py:61-70 | the listed streams are exactly those with a note or sweep waiting, none twice |
| `Graph.RunDrainsAPrefix` | src/mailflow/adapters/graph/provider.py:72-85 | however a run ends, the notes of a prefix of its streams are gone and every other note is kept in order |
| `Graph.RequestsSurviveExactly` | src/mailflow/adapters/graph/provider.py:82-85 | however a run ends, a requested sweep is still waiting if and only if its listing was not asked for; every listing asked for was read and fetched whole, but for the last one of a run that ended by exception |
| `Graph.FirstRequestGoes` | src/mailflow/adapters/graph/provider.py:83-84 | taking a request off the queue takes its first occurrence and nothing else |
| `Graph.NormalRunEmptiesTheDesk` | src/mailflow/adapters/graph/provider.py:82-84 | a run that ends normally leaves no note and no sweep waiting |
| `GraphRuns.AllTerminalIsSettled` | src/mailflow/core/observability.py:109-117 | from quiet stores, an all-terminal run has looked up every waiting note; each lookup it made found no mail or one that is done, and every message it fetched, from notes and sweeps, is done; the stores are quiet again if and only if no exception left a visit |
| `GraphRuns.RunAsksServer` | src/mailflow/adapters/graph/provider.py:72-81 | every lookup on a run's account has an answer the mail server gave for that note |
| `Runtimes.Runtime.Handle` | src/mailflow/adapters/servicebus/runtime.py:71-94 | submit, run and judge one transport message |
| `Runtimes.Runtime.ProcessMessages` | src/mailflow/adapters/servicebus/runtime.py:68-95 | complete or abandon each message; an exception abandons its message and ends the batch |
| `Runtimes.Runtime.ProcessBatch` | src/mailflow/adapters/graph/runtime.py:75-102 | the checkpoint after the batch |
| `Runtimes.ServiceBusSettlement` | src/mailflow/adapters/servicebus/runtime.py:68-95 | a returning batch settles every message once and leaves no note waiting that it did not find; a raising one abandons the message at fault last; either way the stores are quiet again if and only if no exception left a visit; of a completed message, every note was looked up, and every mail found or fetched in its own run is done |
| `Runtimes.BatchesSettle` | src/mailflow/adapters/servicebus/runtime.py:68-95 | after any batches, returned or raised, as long as no exception left a visit, the next batch is settled just as the first |
| `Runtimes.ObligingNeverEscapes` | src/mailflow/adapters/servicebus/runtime.py:68-95 | and none does where size call, refresh, sink and durable store do not raise |
| `Runtimes.SweepRequestIsLost` | src/mailflow/adapters/servicebus/runtime.py:87-95 | a message that only asks for a sweep is completed; if the listing raises in the run for the next message, the request is gone |
| `Redelivery.RedeliveryConverges` | src/mailflow/adapters/servicebus/runtime.py:81-86 | a message whose lookups the server keeps answering alike, whatever sweeps wait and list, is settled by its max(1, max_attempts)-th delivery at the latest, however the work fails; what becomes of swept mail is `SweptMail` |
| `SweptMail.SweptMailEndsExactly` | src/mailflow/adapters/graph/provider.py:83-85 | by then a mail is done if and only if one of the notes stands for it or the first delivery had left it done: swept mail left pending is not tried again |
| `SweptMail.FirstMovesToken` | src/mailflow/adapters/graph/provider.py:88-116 | once the first mail of a listing is terminal, the next sweep resumes behind the whole listing, whatever becomes of the rest |
| `SweptMail.SweptMailIsLost` | src/mailflow/adapters/graph/provider.py:83-85 | where more than one attempt is allowed, a swept mail that stumbles once stays undone although its message is settled and nothing waits |
| `PassedEvents.HeldIsRedeliveredExactly` | src/mailflow/adapters/graph/runtime.py:75-102 | over all worlds and mail servers, every held event of a batch stays at or after the checkpoint if and only if the configuration leaves no message pending, or no event with notes is followed by one that may settle before one that must raise |
| `PassedEvents.SafeBatch` | src/mailflow/adapters/graph/runtime.py:75-102 | on that condition held events come back from any stores and queue, not only from empty ones |
| `PassedEvents.PassedEventIsLost` | src/mailflow/adapters/graph/runtime.py:91-102 | otherwise, for every such configuration and batch, one world and mail server make the checkpoint pass a held event whose mail is then neither done nor waiting |
| `Streaming.IterDecoded` | src/mailflow/extract/streaming.py:43-70 | the chunk loops yield the specified chunks and stop at the first undecodable slice |
| `Streaming.ChunkedIsWhole` | src/mailflow/extract/streaming.py:51-58 | for every well-formed payload, whitespace folding and chunk size, the chunks in a row are the whole decoding and none exceeds the chunk size by more than three |
| `Streaming.DecodedSliceBySlice` | src/mailflow/extract/streaming.py:51-58 | any text, well-formed or not, is decoded slice by slice, to its end or to the first slice the decoder refuses |
| `Streaming.DigestAndSize` | src/mailflow/extract/streaming.py:73-85 | never hashes more than the cap, and only a prefix of the content |
| `Streaming.CapIsExact` | src/mailflow/extract/streaming.py:73-85 | refused if and only if the content is longer than the cap; otherwise hash and length of the whole, independent of chunk size |
| `Whitespace.SqueezeUndoesFolding` | src/mailflow/extract/streaming.py:52-52 | dropping whitespace gives the payload if and only if the text is a folding of it |
| `Mime.InMemoryBlobStore.PutStream` | src/mailflow/stores/memory.py:126-130 | stores the joined chunks unless the reference is taken |
| `Mime.Extractor.ProcessPolicy` | src/mailflow/extract/mime.py:303-344 | the verdict on one part and its effect on the blob store; nothing raises |
| `Mime.Extractor.WalkBody` | src/mailflow/extract/mime.py:215-271 | the walk equals its specification, HTML fallback included |
| `Mime.CarriedExactly` | src/mailflow/extract/mime.py:235-262 | by disposition, content id, name and type: a part is carried if and only if it counts as an attachment or as inline, the one it counts as decides the rule, and it is described by its own name, type and content id |
| `Mime.JudgedExactly` | src/mailflow/extract/mime.py:303-344 | a carried part is kept if and only if the rule of its kind allows it, its bytes fit the cap, it decodes and the scanner passes it, shown its true hash and size; what is kept, and the strip with the first check that failed, describe the part itself; the bytes of a well-formed part are its content |
| `Mime.WalkPartitions` | src/mailflow/extract/mime.py:225-266 | each part that counts as an attachment or as inline is kept or stripped, once, in document order, independently of the others |
| `Mime.WalkChoosesBodies` | src/mailflow/extract/mime.py:239-244 | the bodies are the first non-empty texts of their type among the parts that count as neither |
| `Mime.TextFallsBackExactly` | src/mailflow/extract/mime.py:267-271 | the text is made from the HTML if and only if there is no text and there is HTML |
| `Mime.WalkStores` | src/mailflow/extract/mime.py:340-344 | the blob store gains exactly the hashes of kept non-empty parts, loses nothing and stays content-addressed |
| `Mime.RefsResolve` | src/mailflow/extract/mime.py:340-344 | each kept part's reference leads to bytes with its hash |
| `Subject.RepliesNormalizeToTheirRoot` | src/mailflow/extract/clean.py:24-42 | prepending any number of reply markers, in any case and spacing, does not change the normalised subject |
| `Subject.RepliesJoinTheirThread` | src/mailflow/extract/mime.py:170-173 | a reply without a provider thread id gets its root's thread key |
| `Subject.NormalizeTwice` | src/mailflow/extract/clean.py:37-42 | normalising is idempotent |
| `SubjectWords.LaidOutAreWords` | src/mailflow/extract/clean.py:22-22 | the words of a text are the only ones it can be laid out from: runs without whitespace, with whitespace between them and perhaps around them |
| `SubjectWords.EverySubjectUnmarks` | src/mailflow/extract/clean.py:24-24 | every subject is some reply markers and then a rest in front of which none stands |
| `SubjectWords.NormalizeJoinsWords` | src/mailflow/extract/clean.py:37-42 | the normal form of a subject is the words of that rest, in order and joined by single spaces |
| `SubjectWords.NormalizedAlikeExactly` | src/mailflow/extract/clean.py:37-42 | two subjects have one normal form if and only if the same words are left of them |
| `SubjectWords.ThreadKeyJoinsWords` | src/mailflow/extract/mime.py:169-173 | the thread key is the provider's thread id, or, without one, those words in lower case |
| `GmailClient.Client.Request` | src/mailflow/adapters/gmail/client.py:48-55 | sheds when saturated; the permit comes back on every exit |
| `GmailClient.Client.Acquire` | src/mailflow/adapters/gmail/client.py:48-51 | admits below the capacity only; it is an arrival at the gate, whoever is inside |
| `GmailClient.Client.Release` | src/mailflow/adapters/gmail/client.py:54-55 | it is a departure |
| `GmailClient.PermitsAreCalls` | src/mailflow/adapters/gmail/client.py:35-55 | however many callers come and go in whatever order, the permits taken are the calls under way and never above the capacity, and an arrival is shed exactly at the capacity |
| `GmailClient.Client.RequestInner` | src/mailflow/adapters/gmail/client.py:57-100 | the loop terminates and makes the specified call |
| `GmailClient.RequestsAreBounded` | src/mailflow/adapters/gmail/client.py:57-100 | at most max_retries + 2 requests, max_retries sleeps, one refresh, whatever the server does |
| `GmailClient.BoundsAreReached` | src/mailflow/adapters/gmail/client.py:57-100 | a server that reaches all three bounds, where the platform accepts the sleeps |
| `GmailClient.LastReplyDecides` | src/mailflow/adapters/gmail/client.py:66-100 | unless a token, refresh or sleep raises, the outcome is that of the last reply's status; a network error, 429 or status from 500 up is final only when no retry is left, a 401 only after the refresh |
| `GmailClient.CallFollowsReplies` | src/mailflow/adapters/gmail/client.py:38-100 | reply by reply: while retries are left, each network error, 429 and status from 500 up is followed by one sleep of the due length and another request; the first 401 by the refresh and another request; any other reply ends the call, as success below 400, else as the error its status names |
| `GmailClient.EverySleepIsLongEnough` | src/mailflow/adapters/gmail/client.py:38-46 | each sleep is at least its exponential share and the server's Retry-After |
| `GmailClient.SleepsAreExponential` | src/mailflow/adapters/gmail/client.py:38-46 | without Retry-After, k sleeps total between base (2^k - 1) and base (2^k - 1 + k) |

## Left out

- Pipelines.Pipeline.Process: traces and dead letters carry the message key instead of the canonical id, and reasons are a datatype instead of text.
- Visits.EveryVisit: exceptions raised by the claim and cursor stores themselves, and database failures, are not modelled; each store operation is one atomic step.
- Leases.VisitIsATrace: the pipeline over leased claims is modelled on values, not as an object over the SQL stores; its steps are the claim machine's, which both SQL stores are proved to be.
- Recoveries.HeldComesBackExactly: no lease on a run's messages ends while that run is under way (where one does, the clock's reading at the message decides); mailboxes have growing cursors and unshared slots, and the message has its key to itself.
- LeasedLowWater.EscapeIsPassedExactly: each of the two runs reads one time; `SmoothRunPassesExactly` is the second half for clocks that go on.
- LowWater.LowWaterMark: it needs strictly increasing cursors and unshared slots; the shared cursor of a Gmail batch does not meet the first, so nothing is claimed for it, and seeds that do not meet the second are the subject of `Seeds`.
- MemoryStores.InMemoryDeadLetterStore.ListPending: a negative limit, which Python reads from the end, is not modelled.
- Workers.NothingIsLost: the expiry written by `mark_done` is any time at all, which covers both clock readings of the SQL stores.
- RunSchedules.HistoryIsASchedule: the schedule's clock stands still, because in-memory claims never lapse; with a lease of zero or less they would differ at once.
- Workers.EmittedAtMostOnce: the workers' clocks may differ by a bounded skew from one time that never runs backwards; clocks that jump further are not modelled.
- Redrive.Redrive: the provider's own answer to `message_size` is part of the world; `Redrive.OwnSizes` states it where it matters.
- Streaming.ChunkedIsWhole: chunk sizes are positive; base64 text that is not well-formed is decoded by a given function, because Python skips characters outside the alphabet; quoted-printable decoding is given too.
- Mime.Extractor.WalkBody: MIME parsing, charsets, file-name cleaning, allowlist and scanner tests and HTML-to-text are given; a scanner or blob store that raises is not modelled.
- Graph.RunOneStream: JSON parsing, clock stamps and the fallback lookup by internet message id are inside the mail server's answers; a fetch is one batch ending in an optional exception, consumed as far as the pipeline asks for it.
- Runtimes.Runtime.ProcessMessages: exceptions of `complete`, `abandon` and `update_checkpoint` themselves are not modelled; of a lifecycle event only a failure or a requested sweep matters.
- Subject.RepliesJoinTheirThread: lower-casing is a given function; case folding of the reply words is that of their letters.
- GmailClient.Client.Request: callers in parallel are the subject of `GmailClient.PermitsAreCalls`, at the grain of taking and giving back a permit; a Retry-After of NaN is none.
- Legacy attachment mode, in which a violation raises and dead-letters the message.
- `ThinContentCleaner`, which repeats the HTML fallback of the walk in one assignment.
- `derive_canonical_id` and the trust test on Message-ID: one-branch functions.
- Observers, logging, health checks, configuration, command line, inbox UI and wiring.
- SQL text, schema migrations and connection retry; the SQL dead-letter stores.
- History pagination of the mail client, and everything behind the HTTP transport.
- `LocalBlobStore`, whose interrupted writes are documented as not repaired.
