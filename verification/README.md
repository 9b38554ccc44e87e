# The session event ledger, and everything derived from it

One agent session is one append-only log of events. Four things are derived from it: the `runs` table, the
`recent_sessions` projection, the render snapshot a client displays, and the resumable server-sent-event (SSE)
feed that replicates the log to clients. This project models that small replicated-log system in Dafny,
with its crashes and its interleavings, and proves what it guarantees. Where the code guarantees less
than its comments or documents say, the project states the exact condition or a concrete failing run.

Verify everything with `dafny verify dfyconfig.toml`.

## How it is organised

| files | what they hold |
|---|---|
| `Ledger`, `Decimal`, `Folds` | events, run boundaries, decimal notation, repeated steps |
| `Render`, `RenderLaws`, `RowLaws` | the render reducer as one imperative pass, its positional meaning, bounded windows, monotone snapshots, what every row shows of its event |
| `Tables`, `Store`, `Paging` | the tables as values, the store as a class over them, its queries, backward paging |
| `Recovery` | what startup recovery does to the tables, row by row |
| `Lifecycle` | the run lifecycle as a transition system: every durable write is one step, a crash may fall between any two |
| `LifecycleSafety`, `Alternation`, `LifecycleOrder`, `LifecycleRecovery`, `LifecycleIntents`, `LifecycleProjection` | theorems over all its runs |
| `LifecycleRaces`, `LifecycleLookups` | what unserialised requests and ill-timed crashes break, and exactly when |
| `LifecycleRuns`, `LifecycleScenes`, `LifecycleExamples` | runs from empty tables in which they do, built step by step |
| `Turn`, `TurnLaws`, `Service`, `Publication` | the service's methods as imperative code, what each publishes, and that each is what its single-write steps compose to |
| `SendLaws`, `ReportLaws` | which answer a Send gives and what an accepted one records; what a run leaves of its provider's reports in the ledger, on the stream and in the render |
| `Broadcast`, `Stream`, `StreamLaws`, `Replica`, `ReplicaRace`, `ReplicaGap` | bounded subscriber channels, one connection's handler, and the replication of a ledger to a reconnecting client as a transition system, with one committer or several, and past the window's cap |
| `LifecycleFeed`, `FeedExamples` | lifecycle and replication running together: the client sees what the service commits |
| `ReplicaClient` | the replication's client is the subscription's machine |
| `SseClient`, `SseWire`, `WireClient`, `Backoff` | the client's source/timer/cursor machine, the bytes on the wire, what its listeners hear of them, the reconnect delay |
| `RollingLog` | the rolling log file |

Three kinds of model meet:

- **Imperative code** keeps the source's loops and mutable state: `Render.Compute`, the classes `Store`, `Broadcaster`,
  `Channel`, `Service`, `Handler`, `Subscription` and `RollingFile`, the in-place reversal of `Paging.Reverse`. Each method is
  proved against a function on values.
- **Functions on values** say what each operation means (`Render.Snapshot`, the statements in `Tables`, `Recovery.Reconcile`,
  `Stream.After`). The laws are proved about these.
- **Transition systems** (`Lifecycle`, `Replica`) take the same functions as their steps and let goroutines, requests,
  crashes, overflows and reconnects interleave freely. Theorems quantify over every run (`IsRun`).

## Assumptions

- Store writes and file operations succeed; run ids are fresh. The two inserts of session creation are one step.
- One process per database. Recovery runs before the port is bound (cmd/agent-master/main.go:182-184), so a second
  `serve` on the same file would finish the first one's live runs; no model here has two processes.
- The ordered-delivery theorems of `Replica` take one committer per session, who publishes each event before the next
  append. `LifecycleFeed.DeliveredFromTheService` discharges this for the service: it runs lifecycle and replication
  together and holds whenever no interrupter writes outside the step of its check and no session is deleted under its
  run. For everything else `LifecycleFeed.CompleteIffPublishedInOrder` says exactly when delivery is still complete.
- Transport: frames arrive in the order written, and a client may process any prefix of them before it is cut off.
- A payload is already decoded; one that does not decode has empty fields, as the reducer treats it.
- The provider is any finite sequence of reports that ends in success, cancellation, error or a panic.

## Where code and documents disagree

- The comment on `EventsTail` says that rendering the newest window cannot freeze the run state. It can the other way:
  a run with more events than the window after its start renders idle (`RenderLaws.LongRunRendersIdle`);
  `RenderLaws.WindowRefinesLedger` says exactly when a window is faithful.
- `docs/API.md` says that subscribing before replaying misses no event. Replay covers only the newest 2000
  events, so a connection opens with a gap exactly when more were pending (`Replica.GapExactlyBeyondCap`), and the
  client's cursor passes what is missing (`ReplicaGap.LongLedgerLosesItsStart`, `ReplicaGap.MessageIsMissed`).
- The comment on `DanglingRun` says that a run_started is committed before its runs row is created. The code creates the
  row first, and `LifecycleOrder.LedgerAheadOfTables` depends on that order.
- `docs/API.md` says that repeating a client intent returns the same run. That holds for serialised Sends
  (`LifecycleIntents.OneTurnPerIntent`). The lookup is made before the lock is taken: the first Send to register an
  intent that was recorded since its lookup opens a second turn, and only such a one does
  (`LifecycleLookups.SecondTurnIffRecordedSince`, `LifecycleExamples.TwoTurnsRun`). The intent is recorded before its
  message: after a crash between the two writes, and only then, every repeat is answered with a run of which nothing
  exists (`LifecycleLookups.UnsaidIffBetweenWrites`, `LifecycleExamples.UnsaidIntentRun`).
- The comments in `Interrupt` take "not active" to mean that the dangling run is an orphan. The check and the writes are
  not one step: a Send may start a run in between, which the Interrupt then finishes
  (`LifecycleRaces.LateInterruptBreaks`, `LifecycleExamples.LateInterruptRun`); it may even finish an earlier run again and
  so hide the one that is going from recovery (`LifecycleRaces.LateFinishHidesRun`, `LifecycleExamples.HiddenRunRun`),
  or overtake a message on its way to the client (`FeedExamples.OvertakenEventIsLost`). Deletion under a run breaks the order of
  run boundaries exactly if the run is between its start and its finish (`LifecycleRaces.DeleteBreaksIffOpen`).
- Recovery is meant to leave no session shown as running. The active run of the session list can survive it;
  `Recovery.StaleActiveRunAfterReconcile` gives the exact condition on the tables,
  `LifecycleProjection.CrashLeavesRunNamedIffBeforeTouch` the crash points, `LifecycleExamples.StaleRunRun` a run.

## Model

| member | source | states |
|---|---|---|
| `Ledger.LastBoundaryAppend` | internal/render/render.go:124-135 | How one more event moves the newest run boundary: the reducer's forward fold and a backward search see the same thing. |
| `Render.Compute` | internal/render/render.go:70-151 | The one-pass reducer, with its row list, id-to-row map and open-tool list, returns the positional snapshot of the events. |
| `Render.FlushOpenTools` | internal/render/render.go:82-89 | Exactly the rows still running become incomplete; every other row is unchanged. |
| `Render.ApplyEvent` | internal/render/render.go:91-141 | After each event the rows are the positional ones, the map names the newest call of each id and the open list covers every running row. |
| `RenderLaws.ToolRowMeaning` | internal/render/render.go:101-123 | A tool row is done iff some result answered it before a newer call took its id, with the last such output; it runs iff unanswered, the tail is live and no boundary follows; otherwise it is incomplete. |
| `RowLaws.RowsShowTheLedger` | internal/render/render.go:94-140 | The rows are exactly those of the messages, calls and errors, one each and in ledger order; each has its event's number, its kind, its id (u, a or e and the number, the agent's own id of a call, or t and the number) and its content, field by field. |
| `RowLaws.IdsAreDistinct` | internal/render/render.go:97-140 | In a numbered ledger two rows whose ids the server made never share one. |
| `RowLaws.LastRunStateIsNewestNamed` | internal/render/render.go:127-135 | The last run state is that of the newest run_finished that names a state, whichever it is, and is absent iff none does. |
| `RenderLaws.SettledShowsNothingRunning` | internal/render/render.go:141-150 | The tail is running iff the newest boundary is a start, and a settled ledger shows no running tool. |
| `RenderLaws.WindowRefinesLedger` | internal/store/queries.go:292-319 | A non-empty suffix window has the ledger's basedOnSeq; it has its activity iff the window holds the last boundary or that boundary is not a start, and then its rows are the ledger's trailing rows. |
| `RenderLaws.LastRunStateOfWindow` | internal/render/render.go:127-135 | The window's last run state is the ledger's iff the state was set inside the window or never. |
| `RenderLaws.LongRunRendersIdle` | internal/store/queries.go:292-299 | A run with n events after its start renders idle through every window of n, for all n > 0. |
| `RenderLaws.SnapshotsAreMonotone` | internal/render/render.go:82-149 | Appending any events keeps each existing row's identity and fields, and tool status only moves from running to incomplete to done. |
| `Tables.NewestBoundaryIsLast` | internal/store/queries.go:429-433 | In a ledger read in key order, the boundary with the greatest number is the last boundary. |
| `Store.Store.constructor` | internal/store/queries.go:218-242 | Opens the tables found on disk, whose ledgers have positive numbers in key order. |
| `Store.Store.AppendEvent` | internal/store/queries.go:218-242 | Appends exactly one row numbered one past the greatest, and keeps every ledger in key order with positive numbers. |
| `Tables.TailIsGreatestBump` | internal/store/queries.go:176-182 | However late or disordered the bumps of a session's tail arrive, the tail ends as the greatest of them and what it was, and every other column and table stays. |
| `Tables.FirstRecordedWins` | internal/store/queries.go:323-341 | However many runs try to become the run of an intent, looking it up yields the first. |
| `Store.Store.CreateSession` | internal/store/queries.go:53-77 | Adds the session and seeds its projection row, or fails when it exists. |
| `Tables.CreateAddsAnIdleSession` | internal/store/queries.go:53-77 | A session that is new gets a projection row without events, active run, run state or preview; a row that exists is kept, and so is everything else. |
| `Store.Store.DeleteSession` | internal/store/queries.go:118-135 | Removes the session's row, events, runs and projection, and nothing of any other session. |
| `Tables.DeleteRemovesExactlyTheSession` | internal/store/queries.go:118-135 | After the four deletes nothing of the session is left but its intents, and everything of every other session is unchanged. |
| `Store.Store.DanglingRun` | internal/store/queries.go:426-444 | The search for the newest boundary returns the live run of the ledger, or the empty id. |
| `Store.Store.DanglingRuns` | internal/store/queries.go:449-475 | The grouped-maximum join returns exactly one row per live session, with its live run. |
| `Store.Store.RunningRuns` | internal/store/queries.go:400-417 | Exactly one row per runs row still marked running. |
| `Store.DefinitionsOfRunningAgree` | internal/store/queries.go:426-475 | The reducer's fold and the join agree on every ledger; the single search agrees with them iff the ledger does not hang on a run_started without a run id. |
| `Store.Store.EventsBefore` | internal/store/queries.go:262-290 | The page is the slice of the last events below the bound, with the normalised limit, and hasMore says whether older ones exist. |
| `Store.Store.EventsTail` | internal/store/queries.go:299-319 | The newest events in ascending order, with the normalised limit. |
| `Paging.Reverse` | internal/store/queries.go:286-288 | Reverses the first n elements in place by swapping from both ends and leaves the rest. |
| `Paging.SelectNewest` | internal/store/queries.go:343-358 | Scans the newest rows, newest first. |
| `Paging.RowsBefore` | internal/store/queries.go:262-290 | Fetching one row too many, trimming and reversing yields exactly the page. |
| `Paging.PageIsNewestBelow` | internal/store/queries.go:262-290 | A page holds, in key order, the newest events below the bound, at most the limit (100 unless it lies between 1 and 500), and hasMore says exactly whether an event below the bound was left out. |
| `Paging.PagingIsExact` | internal/store/queries.go:262-290 | Pages taken until hasMore is false concatenate to exactly the ledger as of the first page, whatever the limits and however it grows meanwhile. |
| `Paging.PagingEnds` | internal/store/queries.go:281-289 | The full pages before the last never reach the ledger's size as of the first page, so paging ends. |
| `Recovery.ReconcileSettlesLedger` | internal/session/service.go:426-447 | From any tables, recovery leaves each ledger as its settled form (one run_finished(interrupted) on a live one, nothing on others), rendering idle with no tool running. |
| `Recovery.ReconcileLeavesNothingRunning` | internal/session/service.go:449-462 | No live session and no running runs row is left; no row appears or disappears. |
| `Recovery.ReconcileIsIdempotent` | internal/session/service.go:426-468 | A second recovery changes nothing. |
| `Recovery.StaleActiveRunAfterReconcile` | internal/session/service.go:432-462 | After recovery a session is listed with an active run iff it was before, the ledger was settled and no runs row of the session was running except a dangling ledger's own; no active run is set anew. |
| `Recovery.StuckRunsAreInterrupted` | internal/session/service.go:432-462 | Recovery marks exactly the runs interrupted whose row says running or whose ledger shows them live, and leaves every other runs row. |
| `Recovery.ProjectionAfterReconcile` | internal/store/queries.go:382-388 | The session list keeps its preview; a session shows no active run and an interrupted one exactly where recovery had a run to end, and its tail covers the event recovery appended. |
| `Recovery.OrphanIsEnded` | internal/session/service.go:317-333 | Finalizing an orphan appends one run_finished(interrupted) to a live ledger whose run has an id, interrupts its row and clears the projection but for its preview; otherwise nothing changes. |
| `Recovery.SettleOneMore` | internal/session/service.go:436-444 | The four writes for one dangling run extend the set of settled ledgers by one, in any order. |
| `Recovery.SweepOneMore` | internal/session/service.go:455-462 | The two writes for one running row extend the swept set by one, in any order. |
| `Recovery.SettledLedgerSettles` | internal/session/service.go:439-440 | The settled form of a ledger is settled, renders idle with no tool running, and is its own settled form. |
| `Service.Service.ReconcileStuckRuns` | internal/session/service.go:426-468 | Both loops together turn the store into its recovered form, whatever order the queries returned. |
| `Service.Service.SettleDangling` | internal/session/service.go:432-444 | The first loop settles exactly the live ledgers, with their runs rows and projection rows. |
| `Service.Service.SweepRunning` | internal/session/service.go:450-462 | The second loop interrupts exactly the runs rows still running and clears their sessions' active run. |
| `Service.NextSwept` | internal/session/service.go:455-462 | Sweeping the next row of the query, in whatever order it came, extends the set of swept runs by that row's. |
| `Service.NextSettled` | internal/session/service.go:436-444 | Settling the next row of the query, in whatever order it came, extends the set of settled sessions by that row's. |
| `Service.Service.Commit` | internal/session/service.go:471-487 | Appends, advances the projection and publishes that very event to the session's subscribers, and to no others. |
| `Service.Service.Interrupt` | internal/session/service.go:300-310 | With a run going here, cancels it and leaves the tables; otherwise finishes the dangling run, if any, and publishes exactly what that appended. |
| `Service.Service.FinalizeOrphanRun` | internal/session/service.go:317-333 | Finishes the run the ledger shows live, publishing exactly the event it appends, and does nothing when it is settled. |
| `Service.Service.DeleteSession` | internal/session/service.go:108-114 | Interrupts, publishing what that appends, then removes the session's rows. |
| `Service.Service.Send` | internal/session/service.go:170-249 | The first refusal that applies, or the earlier run of a repeated intent, leaves everything unchanged; otherwise the session is locked for the new run, the turn's opening is written, and exactly its events are published, in order. Each answer comes exactly under its own condition, busy exactly when nothing else refuses it and a run is active, and no lock that is held changes. |
| `Service.Service.Admit` | internal/session/service.go:170-215 | Blocked, unknown session, repeated intent (even while its run is going), busy or admitted: each exactly under its own condition. |
| `SendLaws.SentIffRegisters` | internal/session/service.go:181-219 | While serving, an unblocked Send answers that it was sent exactly when, after its lookup, the transition system lets it take the lock, which is then taken for its run with no other changed. |
| `SendLaws.LockStaysUntilGivenUp` | internal/session/service.go:211-219 | Over any run, what the active map holds for a session stays until that run's own goroutine moves or the process ends: no Send, Interrupt or deletion replaces or removes it. |
| `SendLaws.OpeningRecords` | internal/session/service.go:221-246 | An accepted Send leaves the user's message and run_started at the ledger's end, which shows its run live; a running runs row; the intent, unless it was recorded; and a projection row with the run, its state and the message's preview. |
| `SendLaws.PreviewKeepsTheStart` | internal/session/service.go:495-502 | A preview keeps the first 120 characters and ends in an ellipsis if any were cut; it is the text iff none were, or the one cut was an ellipsis. |
| `Service.Service.Open` | internal/session/service.go:221-246 | Writes intent, user message, runs row, run_started and projection, in that order, and publishes exactly the two events, in order. |
| `Service.Service.OnReport` | internal/session/service.go:382-406 | A message, call or result is committed as that very event and broadcast; a delta is broadcast with its run, text and index and writes nothing; a note does neither; no other session is sent a frame. |
| `Service.Service.Finish` | internal/session/service.go:348-380 | Writes the ending of each outcome, publishes exactly its events, releases the session and cancels the run's context. |
| `Service.Service.RunProvider` | internal/session/service.go:335-417 | Commits and broadcasts the provider's reports in order, deltas between them, then writes and publishes the ending that matches the outcome, and releases the session. The events up to the ending are one per message, call and result, in order, and the frames one per report that is no note. |
| `Publication.ReportsFedBy` | internal/session/service.go:382-406 | The committed events among the frames of a run's reports are exactly what the reports appended to the ledger, in order. |
| `ReportLaws.ReportsAreRecounted` | internal/session/service.go:382-406 | The ledger grows by one event of the run for each message, call and result reported, with its content and in its order, and by nothing else. |
| `ReportLaws.ReportsAreRetold` | internal/session/service.go:382-406 | The stream gets one frame for each report but the notes, in order: a delta with the run, text and index, or an event of the run with the report's content. |
| `ReportLaws.TurnTellsItsReports` | internal/session/service.go:221-417 | A whole turn of a new run is the user's message, run_started, one event per kept report and the ending; the ending, the runs row, the projection row and the rendered last run state all name done, interrupted or failed as the outcome demands, and the projection shows no active run and previews the final text or else the newest message. |
| `ReportLaws.ReturnedToolIsDone` | internal/render/render.go:101-123 | A tool the provider called and whose result it reported is rendered as a row with that call's id, name and input, done, with that output, unless the id is called or answered again. |
| `Turn.TurnIsItsSteps` | internal/session/service.go:221-417 | The whole methods are what the goroutine's single-write steps compose to when nothing falls between them, each step being one the transition system accepts. |
| `Turn.SendIsItsSteps` | internal/session/service.go:221-246 | The opening writes are the composition of the goroutine's first steps, with or without an intent. |
| `Turn.ReportSteps` | internal/session/service.go:382-406 | Each committed report is its append and its bump; the last assistant text is remembered. |
| `Turn.FinishSteps` | internal/session/service.go:348-380 | The finalizer's writes are the composition of the steps after the provider's return, for every outcome. |
| `TurnLaws.TurnRecordsItself` | internal/session/service.go:240-380 | An uninterrupted turn of a new run appends its user message, run_started, what was reported and its ending, nothing else; ledger, runs row and projection agree that it is over and how. |
| `TurnLaws.TurnTouchesOnlyItsSession` | internal/session/service.go:221-380 | Besides its session's rows and its runs row, a turn changes nothing but its intent's record. |
| `LifecycleSafety.ServingIsSettledOrActive` | internal/session/service.go:211-219 | In every serving state of every run from any tables, a session without an active run is settled and idle, no two runs of a session are between registration and release, and a running runs row has its goroutine. |
| `LifecycleSafety.AtomicInterruptIsSilent` | internal/session/service.go:300-310 | Once serving, an Interrupt done in one step writes nothing. |
| `LifecycleSafety.InterruptIsItsSteps` | internal/session/service.go:300-333 | With nothing in between, the single-write steps of an Interrupt that saw no active run compose to finalizing the orphan at once. |
| `Alternation.AlternatesAppend` | internal/session/service.go:317-369 | An event keeps run boundaries alternating iff a start comes on a settled ledger and a finish names the live run. |
| `LifecycleOrder.BoundariesAlternate` | internal/session/service.go:234-369 | With Interrupt as one step and no mid-run deletion, the boundaries of every reachable ledger alternate start and finish with matching ids, crashes included, and numbers are exactly 1..n. |
| `LifecycleOrder.LedgerAheadOfTables` | internal/session/service.go:234-244 | At every crash point a started run has its runs row, a started run with a terminal row is finished in the ledger, and the projected tail never passes the end. |
| `LifecycleOrder.OrderFromEmptyTables` | internal/session/service.go:234-369 | Both hold of every disciplined run of a process that began on empty tables. |
| `LifecycleOrder.ProjectionCatchesUp` | internal/session/service.go:471-487 | After the second write of any commit to a session, by a goroutine or by recovery, and until the next append to it, the projected tail is the ledger's end, whatever else happens. |
| `LifecycleOrder.CrashBeforeTouchLeavesStaleRun` | internal/session/service.go:355-374 | A crash between the last FinishRun and the projection update survives recovery: the finished run stays named as active. |
| `LifecycleRecovery.ServingBeginsReconciled` | cmd/agent-master/main.go:180-184 | Whenever serving begins, the tables are exactly the recovered form of those the process last started on. |
| `LifecycleRecovery.RepeatedRecoveryAppendsOnce` | internal/session/service.go:432-447 | However often recovery crashes and restarts between its writes, each dangling ledger gets one run_finished(interrupted) and the others nothing. |
| `LifecycleIntents.IntentRunNeverChanges` | internal/store/queries.go:335-341 | Over any run, crashes included, the run recorded for an intent never changes. |
| `LifecycleIntents.OneTurnPerIntent` | internal/session/service.go:186-247 | With Sends serialised, an intent owns at most one user_message and one run_started. |
| `LifecycleRaces.SecondTurnIffOwned` | internal/session/service.go:211-244 | In any state, whatever was looked up and when: after the first two steps of a Send's goroutine its intent owns two user messages iff it owned one at registration; after the first five it owns two run_started events iff it owned one then. |
| `LifecycleLookups.SecondTurnIffRecordedSince` | internal/session/service.go:187-244 | In any run up to its first registration of a recorded intent: every registered request was looked up and not found, and if its session was not deleted since, it opens a second turn iff a lookup at registration would have found the intent recorded. |
| `LifecycleLookups.OwnedIsRecorded` | internal/session/service.go:187-226 | In every state of a run so far serialised, a lookup finds each intent that owns a user message or a run_started. |
| `LifecycleLookups.UnsaidIffBetweenWrites` | internal/session/service.go:222-236 | Of an intent recorded since some point without crash or deletion, the run has no user message iff its goroutine stands between the two writes: these are the crashes that leave it recorded without a turn. |
| `LifecycleLookups.UnfulfilledForEver` | internal/session/service.go:187-196 | After such a crash every later lookup of the intent, over any run, yields that run, and its message never appears. |
| `LifecycleExamples.UnsaidIntentRun` | internal/session/service.go:222-236 | A run from empty tables with one crash after which a repeat is answered with a run that has no event and no runs row. |
| `LifecycleExamples.TwoTurnsRun` | internal/session/service.go:187-244 | A run from empty tables in which two requests look one intent up before it is recorded, and both commit a user message and a run_started. |
| `LifecycleProjection.ActiveRunIsReal` | internal/store/queries.go:186-192 | From any start of the process until it crashes, a session listed with an active run has one, except those whose run survived that start's recovery, which are exactly those listed when serving begins. |
| `LifecycleProjection.ActiveRunIsRealFromEmpty` | internal/store/queries.go:186-192 | From empty tables, in every run without a crash, every listed active run is real. |
| `LifecycleProjection.CrashLeavesRunNamedIffBeforeTouch` | internal/session/service.go:355-374 | In disciplined runs, a crash leaves a session's run named through recovery iff it falls between the goroutine's FinishRun and its last projection update, unless the name had survived before. |
| `LifecycleExamples.StaleRunRun` | internal/session/service.go:355-374 | A run from empty tables, one crash and recovery included, that ends serving with nothing active and the finished run listed as active. |
| `LifecycleRaces.LateInterruptKeepsIffLive` | internal/session/service.go:300-333 | In any run, when an Interrupt that found a dangling run appends its finish, the boundaries still alternate iff that run is still the live one; and then a goroutine is running it. |
| `LifecycleRaces.LateInterruptBreaks` | internal/session/service.go:300-333 | So an Interrupt that writes while serving breaks the alternation at once or at that goroutine's next boundary, whatever falls between. |
| `LifecycleExamples.LateInterruptRun` | internal/session/service.go:300-333 | A run from empty tables in which an Interrupt checks before a Send and finishes the new run under its goroutine. |
| `LifecycleRaces.LateFinishHidesRun` | internal/session/service.go:317-333 | In any run, an interrupter that finishes a run other than the live one, then a crash: recovery adds no run_finished to the live run's ledger and still makes its runs row terminal. |
| `LifecycleExamples.HiddenRunRun` | internal/session/service.go:317-333 | A run from empty tables that ends serving with a run that has a run_started, a terminal row and no run_finished. |
| `LifecycleRaces.NextBoundaryBreaksIffOpen` | internal/session/service.go:234-369 | A goroutine whose session's ledger is settled and alternating breaks that with its next boundary iff it is between its start and its finish. |
| `LifecycleRaces.DeleteBreaksIffOpen` | internal/session/service.go:108-114 | In any run, after a session is deleted under its run the goroutine's next boundary keeps the alternation iff the run was not between its start and its finish. |
| `LifecycleExamples.DeleteMidRunRun` | internal/session/service.go:108-114 | A run from empty tables in which a deletion leaves a run_finished as the whole ledger of a session that is gone. |
| `Broadcast.Broadcaster.Subscribe` | internal/session/broadcast.go:39-50 | A fresh open channel under its own id, tracking the session from this point on. |
| `Broadcast.Broadcaster.Unsubscribe` | internal/session/broadcast.go:52-64 | Closes that channel if it is registered and changes no other, nor what any receiver has taken or where any earlier channel ended; no channel is closed twice. |
| `Broadcast.Broadcaster.Publish` | internal/session/broadcast.go:69-80 | Every subscriber of the session gets the frame, or is closed and removed when its 256-frame buffer is full; what receivers have taken and where closed channels ended stays, so taken plus buffered frames are the contiguous run of those published up to the drop. |
| `Broadcast.Broadcaster.OfferTo` | internal/session/broadcast.go:72-79 | One subscriber: the frame enters the buffer and moves the channel's end, or the full channel is closed and removed with its end where it was. |
| `Broadcast.Broadcaster.Drop` | internal/session/broadcast.go:56-58 | Closes an open registered channel once and removes it; exactly the registered channels stay open. |
| `Broadcast.Broadcaster.ReceiveFrom` | internal/server/stream.go:110-116 | Takes the oldest frame and changes nothing else; a dropped and drained channel has delivered exactly the contiguous run of frames up to its drop. |
| `Stream.Handler.constructor` | internal/server/stream.go:85-96 | Replays the window past the cursor, moving the cursor, then renders the window. |
| `Stream.Handler.OnFrame` | internal/server/stream.go:117-136 | A delta is written with its run, text and index and changes no variable; an event not newer than the last is dropped; a newer one is accumulated, written if past the cursor, and then rendered. |
| `Stream.Handler.OnDropped` | internal/server/stream.go:110-116 | A closed subscription sends the connection's cursor as the place to resume. |
| `Stream.Handler.OnTick` | internal/server/stream.go:107-109 | A ping is written and nothing else changes. |
| `Stream.ReplayedIsSuffix` | internal/server/stream.go:85-95 | On consecutive numbers the replay is exactly the window's events past the cursor. |
| `StreamLaws.DeltasAreForwarded` | internal/server/stream.go:117-123 | In every state of every replication run, the deltas a connection has written are those it has consumed, in order, with the same run, text and index. |
| `StreamLaws.SnapshotsFollowTheirEvents` | internal/server/stream.go:85-136 | In every state of every run, an am_render is based on the newest event before it on the wire or a later number, and every event after it is newer; the newest event written has been followed by a snapshot based on it. |
| `StreamLaws.LaggingHolds256` | internal/session/broadcast.go:39-80 | A subscriber that takes nothing holds up to 256 frames; the next one ends it, and it keeps the first 256 for its reader. |
| `ReplicaRace.KeepsEveryEventIffAscending` | internal/server/stream.go:117-136 | Whatever event frames a connection consumes, in whatever order, it accumulates them all iff their numbers ascend strictly past its last. |
| `ReplicaRace.AccumulatesAllIffAscending` | internal/server/stream.go:117-136 | With deltas among the frames, what is accumulated is the records (events above all before them), and that is everything iff they ascend. |
| `ReplicaRace.SendsAllIffAscending` | internal/server/stream.go:128-132 | The same of the am_events written past the client's cursor. |
| `ReplicaRace.DeliversRecords` | internal/server/stream.go:75-138 | For committers that publish in any order, in every state of every run a connection has accumulated its window and the records after it, and written the replay and the records past the cursor. |
| `ReplicaRace.CompleteIffInOrder` | internal/server/stream.go:75-138 | Once all is published and drained, a connection has accumulated and written everything iff the frames it consumed past its window, and past the cursor, came in ascending order. |
| `ReplicaRace.OneCommitterKeepsOrder` | internal/server/stream.go:117-136 | With one committer they always do. |
| `LifecycleFeed.EveryRunIsJoint` | internal/session/service.go:471-487 | Every run of the lifecycle that does not delete the session is the service's part of a joint run; each append, publication and restart is the replica's own step. |
| `LifecycleFeed.JointMirrors` | internal/session/service.go:471-487 | In every joint state, late interrupters and crashes included, the replica's ledger is the session's. |
| `LifecycleFeed.ReplicaPart` | internal/server/stream.go:75-138 | The replica's part of a joint run, up to any state, is a run of replication ending in that state's replica, and an orderly one if its parts are. |
| `LifecycleFeed.CompleteIffPublishedInOrder` | internal/server/stream.go:75-138 | In any joint state, once drained, a connection has and has written all of the session's ledger past its window's start and cursor iff the frames it consumed ascended. |
| `LifecycleFeed.StepFeeds` | internal/session/service.go:471-487 | Each disciplined step is to a session at most one step of a single committer, and what is unpublished is exactly the event whose commit stands between its two writes. |
| `LifecycleFeed.DeliveredFromTheService` | internal/session/service.go:471-487 | In every state of every disciplined joint run the client's onEvent has seen strictly ascending events of the session's ledger, each once from start to cursor while no connection opened with more than 2000 pending, and the replica's invariant holds. |
| `FeedExamples.OvertakenEventIsLost` | internal/session/service.go:300-333 | A joint run from empty tables: a late Interrupt's run_finished is appended behind an assistant message and published before it, and the connected client never sees the message. |
| `Replica.DeliveredInOrderExactlyOnce` | internal/server/stream.go:75-138 | For every interleaving of append, publish, subscribe, snapshot, overflow, disconnect, reconnect and restart, onEvent sees strictly increasing events; and, while no connection opened with more than 2000 pending, every event from start to cursor exactly once. |
| `Replica.DrainedMeansComplete` | internal/server/stream.go:79-138 | Once a registered subscription is drained, the connection has written every event from its replay's first to the ledger's end, whatever the cap; the client's log is complete up to its cursor while no connection opened with more than 2000 pending. |
| `Replica.GapExactlyBeyondCap` | internal/server/stream.go:85-95 | A connection writes the ledger's events past its cursor without a gap iff at most 2000 were pending at its snapshot; otherwise those before the window are skipped. |
| `ReplicaGap.LongLedgerLosesItsStart` | internal/server/stream.go:85-95 | For every ledger past the cap, a run in which a new client processes all it is sent: it has seen the newest 2000 events and none before, and its cursor is the ledger's end. |
| `ReplicaGap.MessageIsMissed` | internal/server/stream.go:85-95 | With one event too many, what it never sees is the user's message. |
| `Replica.RendersAreSnapshots` | internal/server/stream.go:96-135 | Every am_render is the snapshot of a ledger slice ending at its basedOnSeq, whatever the cursor, and of the whole prefix when the ledger fitted the window at connect. |
| `Replica.RendersAreMonotone` | internal/server/stream.go:124-135 | Later snapshots of a connection keep earlier rows and move tool status only forward. |
| `Replica.ReconnectRepeatsCursor` | internal/server/stream.go:111-116 | In every state of every run with one committer, the afterSeq of a reconnect frame is the client's cursor as it processes it. |
| `Replica.CursorNeverDecreases` | frontend/packages/core/src/sse.ts:120-147 | The client's cursor never decreases over any run, reconnect frames included. |
| `SseClient.Subscription.constructor` | frontend/packages/core/src/sse.ts:81-85 | Subscribing opens one source at the given cursor. |
| `SseClient.Subscription.Connect` | frontend/packages/core/src/sse.ts:109-114 | Opens one source at the cursor and cancels the timer, or does nothing once unsubscribed. |
| `SseClient.Subscription.ScheduleReconnect` | frontend/packages/core/src/sse.ts:101-107 | Arms one timer with the capped doubled delay and counts the attempt, or does nothing once unsubscribed. |
| `SseClient.Subscription.OnOpen` | frontend/packages/core/src/sse.ts:116-119 | Resets the backoff; the callback may unsubscribe. |
| `SseClient.Subscription.OnFrame` | frontend/packages/core/src/sse.ts:120-137 | Only an event moves the cursor, and only forward; the source/timer invariant holds even if the callback unsubscribes. |
| `SseClient.Subscription.OnReconnect` | frontend/packages/core/src/sse.ts:140-147 | Takes over a parsed target, closes the old source and opens exactly one new source there. |
| `SseClient.Subscription.OnError` | frontend/packages/core/src/sse.ts:149-154 | Replaces the source by a timer with the capped doubled delay, or by nothing if the callback unsubscribed. |
| `SseClient.Subscription.OnTimer` | frontend/packages/core/src/sse.ts:106-112 | Replaces the timer by one source at the current cursor. |
| `SseClient.Subscription.Unsubscribe` | frontend/packages/core/src/sse.ts:158-166 | Leaves neither an open source nor a timer, so nothing connects again. |
| `SseClient.AliveExactlyOnce` | frontend/packages/core/src/sse.ts:101-166 | After any sequence of callbacks, while subscribed there is exactly one of an open source and an armed timer, and an armed timer's delay is that of the number of errors since the last open. |
| `SseClient.NeverConnectsAgain` | frontend/packages/core/src/sse.ts:101-166 | Once unsubscribed, by a call or from within a callback, nothing ever connects again. |
| `SseClient.ConnectionsClimb` | frontend/packages/core/src/sse.ts:101-147 | If no reconnect target lies behind the cursor, the cursors successive connections resume at never decrease. |
| `ReplicaClient.ClientTracks` | frontend/packages/core/src/sse.ts:101-154 | Over any run of the replication, called back with what its client is sent, the subscription has that client's cursor and its source resumes where the server was asked to. |
| `ReplicaClient.CallbacksOf` | frontend/packages/core/src/sse.ts:116-154 | With one committer these callbacks are a run of the subscription in which no reconnect target lies behind. |
| `ReplicaClient.ConnectionsResumeAhead` | frontend/packages/core/src/sse.ts:101-147 | So against the server the cursors that successive connections resume at never decrease and never pass the client's. |
| `SseWire.ReadsBackWhatWasWritten` | internal/server/stream.go:107-158 | The bytes of any packets with line-free data read, by the standard's algorithm, as one message each in order; pings leave no trace and the last event id is the last written number. |
| `SseWire.ReadPacket` | internal/server/stream.go:144-158 | From any point between packets, one packet reads as one message under the id then in force; `WireClient.HeardAsMeant` says what the client makes of it. |
| `SseWire.ResumesAfterLastWritten` | internal/server/stream.go:161-173 | Sending back the last event id, or the own cursor if none came, resumes after the last event read. |
| `SseWire.NoCursorStartsOver` | internal/server/stream.go:161-173 | Without a digit in header and query, the stream starts from the beginning. |
| `SseWire.ParseFormatted` | internal/server/stream.go:161-173 | A formatted number parses to itself if it fits 64 bits, and not at all otherwise. |
| `WireClient.HeardAsMeant` | frontend/packages/core/src/sse.ts:120-147 | From the bytes of any packets the client's listeners hear the events, renders, deltas and reconnect numbers the server wrote, in order, and nothing else. |
| `WireClient.ReconnectReadsBack` | frontend/packages/core/src/sse.ts:202-210 | A stream that ends in a reconnect frame reads as messages of which the last is that frame's; the client parses the number the server wrote and is called back with it. |
| `WireClient.BytesRepeatCursor` | frontend/packages/core/src/sse.ts:140-147 | With one committer, the callback for a reconnect frame that came through the bytes has the cursor the client already has. |
| `Backoff.DelaysGrowToCap` | frontend/packages/core/src/sse.ts:104-106 | Delays never shrink from one failure to the next and never pass the cap. |
| `Backoff.ShiftFitsIffBaseBelow2To43` | android/core/src/main/kotlin/com/agentmaster/core/SseClient.kt:120-126 | The clamped 64-bit shift overflows for no attempt iff the base is below 2^43. |
| `Backoff.ClampedIsExactIffMaxReached` | android/core/src/main/kotlin/com/agentmaster/core/SseClient.kt:120-126 | Without overflow, the clamped delay is min(base * 2^a, max) for every attempt a iff max is at most base * 2^20. |
| `RollingLog.RollingFile.constructor` | internal/logging/rolling.go:31-45 | Opens over whatever files exist; the size is the current file's length. |
| `RollingLog.RollingFile.ShiftUp` | internal/logging/rolling.go:61-76 | The descending loop of renames moves every kept backup up by one, drops the oldest and begins an empty current file, gaps included. |
| `RollingLog.RollingFile.Rotate` | internal/logging/rolling.go:61-76 | Keeps the file invariant and loses the oldest file's writes only. |
| `RollingLog.RollingFile.Write` | internal/logging/rolling.go:47-55 | Rotates iff the file is not empty and would pass the limit, then appends the whole write to one file. |
| `RollingLog.WriteLosesOnlyOldest` | internal/logging/rolling.go:47-76 | Old log plus the write is what a rotation dropped plus the new log. |
| `RollingLog.WriteKeeps` | internal/logging/rolling.go:47-55 | A write that needs no rotation keeps the invariant: whole writes, a suffix of all written, and files begun by a rotation at most max(maxSize, longest write). |
| `RollingLog.RotationKeeps` | internal/logging/rolling.go:61-76 | A rotation keeps that invariant and drops exactly the oldest file. |
| `RollingLog.DiskHoldsLastBytes` | internal/logging/rolling.go:47-76 | The bytes on disk, oldest backup to current file, are the last bytes ever written; what precedes them is whole writes. |

## Left out

- SQLite, JSON and HTTP themselves: tables are maps and sequences, payloads are datatypes, requests are steps. SQL queries
  appear as selections over rows; only the Go loops around them are loops here.
- Timestamps, titles, model and effort choices, image staging and file names: they do not affect the protocol. Two recoveries
  therefore compare equal although a real second one would refresh `updated_at`.
- Failing store writes and failing file operations: the source logs them and goes on.
- Concurrency inside one object: mutexes make each broadcaster and log-file method atomic, so their classes are sequential;
  interleaving is modelled in `Lifecycle` and `Replica`.
- `ListRecent`, `EventsAfter`, `RenameSession`, `handleRender` and token checks: simple members next to the protocol.
- The provider process, shell probing, installers, user interfaces and the Kotlin transport callbacks.
- Claude's native session id: recorded by the source on the first system report, without effect on ledger or tables modelled here.
- Store.Store.RunningRuns: the rows come in no particular order, while the query orders them by `started_at`; recovery is proved for any order.
- Store.Store.CreateSession: the two inserts are one step, so a crash between them is not modelled.
- Backoff.ClampedIsExactIffMaxReached: attempts are natural numbers; the 32-bit attempt counter wrapping after 2^31 failures is not modelled.
- Backoff.DelaysGrowToCap: the TypeScript client computes on doubles; the model computes on integers.
- Stream.Handler.OnFrame: a frame whose payload cannot be marshalled is skipped by the source; marshalling always succeeds here.
- WireClient.ReconnectReadsBack: the payload is read as an object of one integer member; other JSON, which the server never writes, does not parse here, and rounding to doubles beyond 2^53 is not modelled.
- SseClient.Subscription.OnFrame: a frame whose payload does not parse is ignored by the source and is not an input here.
- LifecycleFeed.DeliveredFromTheService: a commit's publication is one step with its bump, as no durable write lies between them; a session is not followed past its deletion.
- Broadcast.Broadcaster.Subscribe: ids are unbounded natural numbers.
- RollingLog.RollingFile.Write: sizes are unbounded integers, and the file is written only through this object.
