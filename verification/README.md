# Shore-power control service: a verified model

The service hands berths and shore capacity to vessels, closes the grid for them, meters what they draw
and bills it. This project models its five coupled stores and the calls that go through them, and
proves what holds over every sequence of requests, what holds under every interleaving of critical
sections, and, where the code falls short of what its callers might assume, exactly when it does.

The model has two levels.

* **Sequential.** A call runs without interference. Each store is a class with the fields it has in the
  service, whose methods are proved against specification functions on values; the theorems about
  runs are stated on those functions.

| file | content |
|---|---|
| `BerthTable`, `BerthStore` | the berth table; its store with state cache and code index |
| `CapacityBook`, `Capacity` | allocations, demand column and ledger; allocator, ledger and reconciler in place |
| `GridState`, `GridControl` | breaker, phase check, command queue; controller in place |
| `Switching` | switching sequences as a compensated transaction |
| `Metering`, `MeterService` | runs, samples and bills; meter, sample store and billing in place |
| `Sessions`, `Connector` | connection sessions and every connection call; connector in place |
| `Service`, `Server` | the request handlers as values; the application object in place |
| `RecordLog`, `Recording` | the run log and its recovery |
| `Plan`, `Decimal`, `Frame` | capacity plan, decimal printing, WebSocket frames |
| `AtMostOnce`, `Ownership`, `Dispatching` | invariants of connection calls and what each call does |
| `Answers`, `Journeys` | what each call answers, field by field; what one request sets up and the next sees |
| `Safety`, `OwnershipRuns`, `Disorder` | theorems over whole runs of requests; runs that end in disorder |

* **Interleaved.** `Interleaving` has any number of threads and one step for each critical section of
  the connection calls, of the allocator and of the meter, in any order; what the grid and the berth
  store answer between two sections is left open. `Overlap` shows that a call by itself is the
  sequential call; `Refinement` that every sequential run is an interleaving; `Duplicates` exactly
  which steps endanger at-most-once execution; `Races` the runs in which that happens; `Signals` that no
  wake-up is lost.

Conventions: kVA, kWh and prices are reals; times are opaque; a fingerprint is the text that is
hashed; berth ids hold no NUL byte; the syncer's test of a phase is an arbitrary predicate that
does not depend on time; a breaker fault is an input; map iteration is an arbitrary order.

## What the code does not guarantee

Each of these is proved as an equivalence, with an input or a run that shows it.

* Overlapping calls can execute a request more than once. A step keeps every named request at one
  execution exactly when it does not finish a session of a request that was executed before
  (`Duplicates.CountStep`; a run in `Races.DoubleExecution`). As the meter takes each vessel once, that
  needs another vessel (`Duplicates.RepeatsForAnother`): a request is never executed more often than it
  names different vessels (`Interleaving.ExecutionsMean`, `Interleaving.OneVesselOnce`).
* What would rule that out is an invariant, one live session per request and executed sessions that stay
  alive. The first half survives a step exactly when the step is not one of three that act on what an
  earlier section of their call saw (`Duplicates.OneLiveStep`; runs in `Races.DuplicateRequest`,
  `Races.FinishRevives` and `Races.LapseRevives`), the second exactly when the step does not cancel a
  session that was executed (`Duplicates.ExecutedStep`; a run in `Races.ForgottenExecution`), and both
  together exactly when the step is none of the four (`Duplicates.OnceStep`).
* A wait can be answered with success exactly when its session has been decided and whoever decided it
  has signalled (`Signals.NoWakeupLost`), whatever the verdict was: a cancel does, too (a run in
  `Races.WokenByCancel`).
* A switching sequence succeeds exactly when no step is refused, which can be read off the sequence,
  the table and the breaker fault (`Switching.SequenceSucceeds`). One that fails restores the table
  exactly when no berth is set again after a step that changed it
  (`Switching.FailedSequenceRestoresWhen`, an input in `Switching.SettledAndFreed`), and the breaker
  exactly when the last breaker step before the first refused step left it where it was
  (`Switching.FailedSequenceBreaker`, `Switching.FailedSwitchBreaker`). Grid safety after an arbitrary
  sequence has an exact condition, too (`Switching.SequenceSafe`, an input in
  `Switching.ArbitrarySequenceUnsafe`).
* `Cancel` refuses only connected sessions. Cancelling a session that is over takes the berth from
  whoever holds it by then (`Ownership.CancelOfDead`) and breaks ownership exactly when that berth is
  being allocated to another session (`Ownership.CancelOwns`; a run in `Disorder.HarbourCancelTwice`).
* `timeout` does not look at the state again: a late timer keeps the accounting exactly under the
  condition of `AtMostOnce.LateTimeout` (a run in `Races.LateTimerLapses`). A request whose wait ran
  out stays answered by its lapsed session until that session is cancelled (`AtMostOnce.LapsedBlocks`,
  `AtMostOnce.CancelUnblocks`).
* `handleOccupy` for a vessel without a name keeps the capacity it took until the next reconciliation
  (`OwnershipRuns.OccupyOwns`, `OwnershipRuns.LeakRepaired`; a run in `Disorder.HarbourLeak`).
* `handleSwitch` knows nothing of the allocator (`OwnershipRuns.SwitchOwns`; a run in `Disorder.HarbourSwitch`).
  A departure from a berth that was settled without capacity stops half way and leaves the berth
  Releasing, exactly under a condition of `OwnershipRuns.DepartOutcome`; every later departure from it is
  refused (`OwnershipRuns.NeverLeft`; a run in `Disorder.HarbourHalfDeparture`).
* Recovery settles berths that were still being allocated (`OwnershipRuns.RebuildOwns`; a run in
  `Disorder.HarbourApplyThenRebuild`).
* A vessel that was metered once is never metered again, so it can be connected only once
  (`Metering.NeverMeteredAgain`, `Ownership.ConfirmOutcome`).
* The run log's fingerprint joins its fields with NUL bytes: an entry is told apart from all others
  exactly when none of its fields holds one (`RecordLog.FingerprintTells`,
  `RecordLog.SeparatorCollides`).
* `itoa` prints the smallest 64-bit number wrongly, and only that one (`Decimal.ItoaReadsBack`).

## Model

| member | source | states |
|---|---|---|
| BerthStore.Cache.Reset | internal/berth/cache.go:27-34 | the cache becomes exactly the given states, whatever order they are copied in |
| BerthStore.Store.constructor | internal/berth/berth.go:44-59 | the table holds the seed, the cache is its state column, and with distinct codes the index inverts them |
| BerthStore.Store.ByCode | internal/berth/berth.go:72-85 | with a faithful index, lookup by code is search by code, found or not |
| BerthStore.Store.List | internal/berth/berth.go:87-95 | every row once, in some order |
| BerthStore.Store.CachedState | internal/berth/berth.go:107-109 | the fast form of State answers as the table does for every id |
| BerthStore.Store.MarkOccupied | internal/berth/status.go:8-28 | computes the table transition, all or nothing, keeping cache and index faithful |
| BerthStore.Store.MarkIdle | internal/berth/status.go:30-46 | computes the table transition, all or nothing, keeping cache and index faithful; ResetState is the same |
| BerthStore.Store.MarkAllocating | internal/berth/status.go:48-62 | computes the table transition, all or nothing, keeping cache and index faithful |
| BerthStore.Store.MarkReleasing | internal/berth/status.go:64-78 | computes the table transition, all or nothing, keeping cache and index faithful |
| BerthStore.Store.CheckReady | internal/berth/status.go:80-97 | accepts exactly an idle berth that can carry a positive demand, and otherwise gives the first reason that applies |
| BerthStore.Store.PersistSnapshot | internal/berth/snapshot.go:25-36 | the snapshot equals the table row by row |
| BerthStore.Store.RebuildFromLive | internal/berth/snapshot.go:38-58 | table and cache are replaced together; the new index inverts the codes exactly when they are distinct |
| BerthStore.Store.RestoreOne | internal/berth/snapshot.go:60-71 | one row goes back; the index stays faithful exactly when the row keeps its code |
| BerthTable.MarkOccupiedKeeps | internal/berth/status.go:8-28 | occupying touches no other row, keeps fixed data, and changes nothing on error |
| BerthTable.StampTells | internal/berth/status.go:25 | the stamps of two stays at a berth differ exactly when their times do |
| BerthTable.StampReads | internal/berth/status.go:25 | a stamp names berth and time |
| BerthTable.IndexKept | internal/berth/snapshot.go:60-71 | a row change keeps the code index inverse exactly when the code is kept |
| BerthTable.IndexExists | internal/berth/snapshot.go:51-56 | a faithful index exists only if codes are distinct |
| Capacity.Ledger.Close | internal/capacity/ledger.go:35-46 | the scan closes the first open record with the fingerprint and no other |
| Capacity.Allocator.constructor | internal/capacity/capacity.go:35-43 | starts with nothing allocated and consistent books |
| Capacity.Allocator.UsedTotal | internal/capacity/capacity.go:117-125 | the summing loop gives the total in any iteration order |
| Capacity.Allocator.Remain | internal/capacity/capacity.go:111-115 | shore capacity less the total |
| Capacity.Allocator.Allocate | internal/capacity/capacity.go:45-78 | Refresh, cached state test, demand test and locked part compute Allocate on the live table |
| Capacity.Allocator.Release | internal/capacity/capacity.go:80-91 | computes Release and keeps the books |
| Capacity.Allocator.Refresh | internal/capacity/capacity.go:93-109 | drops an allocation exactly if its berth is idle |
| Capacity.Allocator.Allocations | internal/capacity/capacity.go:165-173 | every live allocation and nothing else |
| Capacity.Allocator.SyncFromStore | internal/capacity/capacity.go:149-163 | releasing berth by berth is releasing all idle ones at once; the count is exact |
| Capacity.Reconciler.Reconcile | internal/capacity/reconciler.go:69-104 | the report and the new books are those of Reconcile on values |
| CapacityBook.FingerprintBerth | internal/capacity/ledger.go:48-58 | equal ledger fingerprints belong to the same berth, whatever the vessels are called |
| CapacityBook.LedgerFingerprintTells | internal/capacity/ledger.go:48-58 | two records have one fingerprint exactly if they agree on berth, vessel, time and the demand to two decimals |
| CapacityBook.Fixed2Reads | internal/capacity/ledger.go:48-58 | the printed demand reads back as the hundredths it was rounded to |
| CapacityBook.RoundNearest | internal/capacity/capacity.go:179-181 | rounding goes to the nearest integer, ties to the even one |
| CapacityBook.AllocIDReads | internal/capacity/capacity.go:179-181 | an allocation's id names berth and vessel and ends in the rounded demand |
| CapacityBook.OwnRecord | internal/capacity/ledger.go:35-46 | a live allocation's fingerprint finds the one open record of its berth |
| CapacityBook.CloseOwn | internal/capacity/ledger.go:35-46 | a release closes exactly that record and lowers the open sum by its demand |
| CapacityBook.TryAllocateSafe | internal/capacity/capacity.go:59-77 | the locked part keeps used, allocs and open ledger records in one-to-one agreement and never over-allocates |
| CapacityBook.SecondClaim | internal/capacity/capacity.go:59-62 | the second of two overlapping claims of a berth is given the first one's allocation |
| CapacityBook.ReleaseSafe | internal/capacity/capacity.go:80-91 | a release keeps the agreement and returns exactly the demand |
| CapacityBook.AllocateFresh | internal/capacity/capacity.go:45-78 | succeeds exactly on an idle berth whose positive demand fits, and then holds a fresh allocation of exactly that demand, never an old one |
| CapacityBook.CapacitySafety | internal/capacity/capacity.go:59-91 | over any order of critical sections the books agree, nothing is over-allocated, and closed records never reopen |
| CapacityBook.NeverOverAllocated | internal/capacity/capacity.go:127-133 | from a new allocator what remains is never negative and never above shore |
| CapacityBook.ReleaseSetStep | internal/capacity/capacity.go:149-163 | the order of releases does not matter |
| CapacityBook.ReconcileRepairs | internal/capacity/reconciler.go:69-104 | afterwards no idle berth holds capacity, all other allocations are kept, remainder and counts add up, and repeating it does nothing |
| Plan.BuildPlan | internal/capacity/plan.go:26-51 | a code-sorted listing of every berth once, each item with its berth's own data and allocation; used and remaining make up shore, and the items account for all that is used when capacity is held only for berths of the table, which every run keeps (`Safety.FromTheStart`) |
| Plan.DemandsAddUp | internal/capacity/plan.go:26-51 | the demands of all rows sum to the allocator's total in any listing order |
| Plan.TextLessMeans | internal/capacity/plan.go:26-51 | the sort order is the byte-wise order of texts: prefix first, else the first difference decides |
| Decimal.Itoa | internal/capacity/reconciler.go:116-136 | the index never leaves the 20-byte buffer, and the text is the canonical decimal except for the smallest number |
| Decimal.ItoaReadsBack | internal/capacity/reconciler.go:116-136 | reading the text gives the number back exactly when it is not the smallest one |
| Decimal.PrintThenRead | internal/capacity/reconciler.go:116-136 | canonical decimal text reads back, with no leading zeros |
| Decimal.ReadThenPrint | internal/capacity/reconciler.go:116-136 | canonical text is what printing its value gives, so print and read are inverse both ways |
| Decimal.Pad3Injective | internal/connect/connect.go:129 | zero-padded numbers are distinct, at any length |
| Decimal.Pad3Reads | internal/connect/connect.go:128-129 | a padded number has three digits, or as many as it needs, and reads as the number |
| Frame.FrameThenParse | cmd/server/main.go:818-832 | a frame followed by any bytes parses to its payload and those bytes, in the shortest length form (section 5.2 of RFC 6455) |
| Frame.ParseThenFrame | cmd/server/main.go:818-832 | whatever parses is the frame of its payload |
| Frame.StreamThenParse | cmd/server/main.go:807-832 | any concatenation of frames decodes to the original payloads |
| Frame.StreamInjective | cmd/server/main.go:807-832 | different payload lists give different streams |
| Frame.WholeText | cmd/server/main.go:818-832 | every frame is one final, unmasked text message with the shortest header |
| GridControl.CommandQueue.Push | internal/grid/dispatch.go:32-44 | computes the deduplicating push |
| GridControl.CommandQueue.Pop | internal/grid/dispatch.go:46-55 | computes the pop from the front |
| GridControl.Controller.SyncAndClose | internal/grid/grid.go:75-100 | succeeds exactly when the grid is off, the phase was checked and matches and the breaker closes; then one closing is counted, otherwise nothing changes |
| GridControl.Controller.Separate | internal/grid/grid.go:102-123 | computes the separation with a breaker that opens |
| GridControl.Controller.AutoDispatch | internal/grid/dispatch.go:84-109 | the pop-and-try loop terminates; in manual mode it changes nothing, in automatic mode it empties the queue and dispatches one exactly if there was one and closing is possible |
| GridControl.Controller.RestoreAll | internal/grid/sequence.go:93-102 | restoring in any order puts every saved row back and nothing else |
| GridControl.Controller.ApplySequence | internal/grid/sequence.go:31-91 | the loop with its compensation computes the sequence on values |
| GridState.QueueHistory | internal/grid/dispatch.go:32-55 | over any run, what was popped followed by what is queued is what was accepted, in order; no id is accepted twice |
| GridState.QueueAnswers | internal/grid/dispatch.go:32-55 | after any run a command is taken exactly if its id is new, and a pop gives the oldest one not handed out |
| GridState.DrainByMode | internal/grid/dispatch.go:84-109 | nothing in manual mode; in automatic mode the queue is emptied and one dispatched exactly if there was one and closing is possible |
| GridState.DrainAgain | internal/grid/dispatch.go:84-109 | draining again at once finds nothing to do |
| GridState.SeparateForgets | internal/grid/grid.go:102-123 | after a separation neither a close nor a drain can close the grid before a new phase check |
| Switching.SucceededRun | internal/grid/sequence.go:31-91 | a sequence that succeeds leaves, for each thing it sets, the last setting |
| Switching.SavedRows | internal/grid/sequence.go:68-72 | the row saved for a berth is its row just before the last attempted step on it |
| Switching.FailedSequence | internal/grid/sequence.go:31-102 | what a failed sequence of any length leaves: grid state, breaker and every row |
| Switching.FailedSequenceRestores | internal/grid/sequence.go:31-102 | with no berth set twice, every row and the grid state are restored |
| Switching.SequenceSucceeds | internal/grid/sequence.go:31-91 | a sequence succeeds exactly when no step is refused, refusals being read off the table, the fault and the earlier steps |
| Switching.SequenceFails | internal/grid/sequence.go:44-91 | the first refused step is the last one attempted |
| Switching.SequenceError | internal/grid/sequence.go:31-91 | what a failing sequence reports, read off its first refused step |
| Switching.FailedSequenceRestoresWhen | internal/grid/sequence.go:31-102 | every row is restored exactly when no berth is set again, up to the first refused step, after a step that changed it |
| Switching.FailedSequenceBreaker | internal/grid/sequence.go:93-102 | the breaker stays as the last breaker step before the first refused one put it |
| Switching.SequenceSafe | internal/grid/sequence.go:31-102 | for any sequence, exactly when grid state and breaker agree afterwards, whether it succeeds or fails |
| Switching.ArbitrarySequenceUnsafe | internal/grid/sequence.go:46-49 | an input for which they do not |
| Switching.SettledAndFreed | internal/grid/sequence.go:68-72 | an input on which compensation leaves a berth settled that was idle |
| Switching.SwitchOutcome | cmd/server/main.go:443-456 | exactly when a switch is accepted and what it does to grid and table |
| Switching.SwitchSafe | cmd/server/main.go:443-456 | a switch keeps the grid safe whether it succeeds or fails |
| Switching.FailedSwitchBreaker | cmd/server/main.go:443-456 | a failed switch leaves the grid as it was exactly if it was a switch on or the breaker was open |
| Metering.SampleTextInjective | internal/meter/store.go:49-57 | the fingerprint text determines vessel, berth and number |
| Metering.SampleIsNew | internal/meter/store.go:24-37 | the next sample of a run is never taken for a repetition |
| Metering.TakeSampleSafe | internal/meter/meter.go:71-116 | a sample is taken exactly while metering, is appended, and leaves other vessels alone |
| Metering.MeteringHistory | internal/meter/meter.go:53-155 | over any run, samples are numbered from one without a gap, a tenth of a kWh apart, and every bill is for the whole frozen history |
| Metering.BillsAgree | internal/meter/billing.go:41-75 | all bills of a vessel carry the same energy and berth, and each total is energy times the prices of its tier |
| Metering.StartRuns | internal/meter/meter.go:53-69 | exactly when a start succeeds; the vessel is then being metered at that berth with nothing read, and no other vessel is affected |
| Metering.StartThenSample | internal/meter/meter.go:53-94 | the first sample after a start is number one, 0.10 kWh, at the berth of the start |
| Metering.SuspendGuards | internal/meter/meter.go:118-155 | when a run may be suspended, resumed and stopped, and what refuses it |
| Metering.SuspendThenResume | internal/meter/meter.go:118-144 | a suspended run takes no sample; resuming undoes suspending, and the next sample carries the next number |
| Metering.StopEnds | internal/meter/meter.go:146-155 | a stopped run is never sampled, suspended, resumed or started again |
| Metering.SettleCharges | internal/meter/billing.go:41-75 | a bill is the last of its vessel's, has the tier of the hour, and charges the energy last read at that tier's two prices |
| Metering.TierMeans | internal/meter/rate.go:31-49 | windows go round the clock, the peak window before the valley window |
| Metering.PricesByTier | internal/meter/rate.go:51-71 | how the prices of the three tiers compare |
| Metering.BillIdsUnique | internal/meter/billing.go:49-53 | over every run no two bills have one id, whatever the vessels are called |
| Metering.BillIDReads | internal/meter/billing.go:49-53 | a bill's id names its vessel and its number |
| Metering.NeverMeteredAgain | internal/meter/meter.go:53-69 | a vessel that has a run can never start another |
| MeterService.Meter.Sample | internal/meter/meter.go:71-116 | while every history is complete a sample is taken exactly while metering, carries the next number of its vessel, and keeps histories complete |
| MeterService.Meter.Start | internal/meter/meter.go:53-69 | succeeds exactly for a named vessel and berth without a run, which then is running with no samples; keeps histories complete |
| MeterService.Billing.Settle | internal/meter/billing.go:41-75 | a bill is issued exactly if the vessel has samples, is for all of them at the two prices of the hour's tier, is appended after the old ones, and keeps every bill proper |
| RecordLog.FingerprintTells | internal/record/fingerprint.go:20-32 | an entry is told apart from every other, ids aside, exactly when none of its fields holds a separator |
| RecordLog.SeparatorCollides | internal/record/fingerprint.go:20-32 | after any entry with a separator a different entry is acknowledged and not logged |
| RecordLog.LeavesOutRepeats | internal/record/record.go:41-72 | an entry without separators is left out only if it was logged already |
| RecordLog.AppendAnswers | internal/record/record.go:41-72 | exactly when an append is refused, acknowledged or written, and that only a written one changes anything |
| RecordLog.AppendTwice | internal/record/record.go:41-72 | appending again changes nothing, and after a close nothing is written |
| RecordLog.DecodedJoin | internal/record/store.go:20-41 | lines are read one by one: an undecodable one costs no other entry, and the order is kept |
| RecordLog.DecodedOne | internal/record/store.go:30-38 | a line gives its entry, or nothing |
| RecordLog.LogHistory | internal/record/record.go:41-72 | over any mix of appends, closes and restarts memory is what the file says, the file only grows, and no appended fingerprint repeats |
| RecordLog.RestartIsIdentity | internal/record/store.go:20-41 | a restart rebuilds exactly the entries and fingerprints held before |
| Recording.Store.Resume | internal/record/store.go:20-41 | reading line by line rebuilds what the decodable lines say |
| Recording.Recorder.Append | internal/record/record.go:41-72 | computes the append; a closed recorder changes nothing, a repeated entry is acknowledged and not written, a new one is added at the end of file and memory; handles balance |
| Recording.Reopen | internal/record/record.go:26-35 | a recorder opened on another's file remembers what that one did |
| AtMostOnce.SessionIDInjective | internal/connect/connect.go:128-129 | session ids never collide |
| AtMostOnce.SessionIDReads | internal/connect/connect.go:128-129 | a session id is its number in at least three digits |
| AtMostOnce.IDCount | internal/connect/connect.go:128-142 | as many ids as numbers given out |
| AtMostOnce.ApplyOnce | internal/connect/connect.go:95-146 | Apply keeps at most one live session per request and the execution counters exact |
| AtMostOnce.ConfirmOnce | internal/connect/connect.go:148-198 | so does confirming |
| AtMostOnce.CancelOnce | internal/connect/connect.go:200-224 | so does cancelling |
| AtMostOnce.WaitOnce | internal/connect/verify.go:8-57 | so does a wait that runs out while the session is verifying |
| AtMostOnce.DispatchOnce | internal/connect/override.go:40-60 | so does a dispatch pass over any order |
| AtMostOnce.OnceMeans | internal/connect/connect.go:95-106 | no request is executed twice, asking again returns the live session and changes nothing, and no session was lost |
| AtMostOnce.LapsedBlocks | internal/connect/connect.go:97-106 | a lapsed session goes on answering its request |
| AtMostOnce.CancelUnblocks | internal/connect/connect.go:200-224 | cancelling it leaves the request without a live session |
| AtMostOnce.LateTimeout | internal/connect/verify.go:35-57 | exactly when a timeout that fires late keeps the accounting |
| Ownership.Local | internal/connect/connect.go:113-145 | a change at one berth keeps ownership if that berth is put in order |
| Ownership.ApplyOutcome | internal/connect/connect.go:95-146 | exactly when a request is taken on, and what that takes; otherwise nothing changes |
| Ownership.ApplyOwns | internal/connect/connect.go:113-145 | the new session owns its berth and its capacity |
| Ownership.ConfirmOutcome | internal/connect/connect.go:148-198 | connects exactly when the grid is off, the phase matches, the breaker closes and the vessel was never metered; else all it held goes back |
| Ownership.WaitOwns | internal/connect/verify.go:8-57 | a wait that runs out gives everything back; a refused one changes nothing |
| Ownership.AbandonOwnsWhen | internal/connect/verify.go:35-57 | ending a session in any state keeps ownership exactly when its berth is not being allocated to another |
| Ownership.CancelOwns | internal/connect/connect.go:200-224 | exactly when Cancel keeps ownership |
| Ownership.CancelReturns | internal/connect/connect.go:211-221 | cancelling a verifying session gives berth and capacity back |
| Ownership.CancelOfDead | internal/connect/connect.go:207-221 | cancelling a session that is over disturbs nothing exactly when its berth is free |
| Answers.ApplyRegisters | internal/connect/connect.go:95-146 | a new session has the request's own vessel, berth and phase and is verifying; a repeated request gets its live session; a refused one changes no session |
| Answers.ApplyRefuses | internal/connect/connect.go:107-125 | every reason Apply is refused for, each exactly when it applies |
| Answers.AllocateRefuses | internal/capacity/capacity.go:45-78 | every reason an allocation is refused for, each exactly when it applies |
| Answers.AllocateRecords | internal/capacity/capacity.go:68-77 | a new allocation opens one record at the end of the ledger, for berth, vessel, demand and time as asked |
| Answers.ReleaseDates | internal/capacity/ledger.go:35-46 | a release dates the berth's one open record and changes no other |
| Answers.ConfirmRefuses | internal/connect/connect.go:148-162 | which sessions cannot be confirmed, and that a connected one is confirmed again without effect |
| Answers.ConfirmAnswers | internal/connect/connect.go:163-198 | every answer to a confirmation exactly when it applies; on success session, berth, meter, grid and counter as they should be |
| Answers.ConfirmStops | internal/connect/connect.go:169-185 | a confirmation stops where it fails: refused by the grid it leaves no stamp, failing later it leaves the grid on, and only a success starts a meter |
| Answers.CancelEnds | internal/connect/connect.go:200-224 | which sessions can be cancelled, and what the session says then |
| Answers.WaitEnds | internal/connect/verify.go:8-57 | which sessions can be waited for, and what one says when the wait runs out |
| Answers.BerthLifecycle | internal/berth/status.go:8-78 | which changes a berth can make and what refuses the others |
| Answers.BerthReads | internal/berth/status.go:8-78 | what a row says after each change |
| Answers.ReadyRefuses | internal/berth/status.go:80-97 | why a berth cannot take a demand, each reason exactly when it applies |
| Answers.OccupyRefuses | cmd/server/main.go:236-256 | why an occupation is refused, each reason exactly when it applies |
| Answers.ResolvesTo | cmd/server/main.go:236-244 | the id counts before the code, and a code means the one berth that has it |
| Journeys.ApplyThenConfirm | internal/connect/connect.go:95-198 | confirming the session just applied for succeeds exactly if the grid is off, the supply matches the phase asked for, the breaker closes and the vessel was never metered; then it is connected as asked, else all is given back |
| Journeys.Visit | cmd/server/main.go:260-358 | apply, confirm, any number of meter readings, depart: possible exactly with a reading, billed once for all of them, berth and capacity free again |
| Journeys.OverrideThenDispatch | internal/connect/override.go:16-60 | after an override is set the queue is drained exactly if it is inactive, and one for the whole harbour leaves nothing to dispatch |
| Journeys.DrainsUnlessOverridden | internal/connect/override.go:23-32 | over every run from the start, draining does nothing exactly while an override is active |
| Dispatching.AutoDispatchOutcome | internal/connect/override.go:40-60 | in any order: at most one closing and one connection, no eligible session left verifying, every other target failed with berth and capacity returned, overridden sessions untouched |
| Dispatching.AutoDispatchConnects | internal/connect/override.go:40-60 | exactly when a pass connects a session: grid off, no fault, and the first vessel in the order whose phase matches was never metered |
| Dispatching.OverrideSpares | internal/connect/override.go:16-60 | under a harbour-wide override a pass does nothing; under one for a vessel exactly its verifying sessions are spared; without one every verifying session is tried |
| Dispatching.DispatchQueue | internal/connect/override.go:52-60 | a pass drains the queue exactly if it connected a session in automatic mode |
| Dispatching.ConfirmAllOutcome | internal/connect/override.go:52-56 | the same for any list of verifying sessions |
| Connector.Connector.Apply | internal/connect/connect.go:95-146 | computes Apply on the stores and keeps the at-most-once invariant |
| Connector.Connector.ConfirmVerification | internal/connect/connect.go:148-198 | computes Confirm on the stores |
| Connector.Connector.Fail | internal/connect/connect.go:256-279 | the failed session gives berth and capacity back |
| Connector.Connector.Cancel | internal/connect/connect.go:200-224 | computes Cancel on the stores |
| Connector.Connector.WaitVerification | internal/connect/verify.go:8-33 | computes a wait during which nothing else happens |
| Connector.Connector.Timeout | internal/connect/verify.go:35-57 | computes the timeout of a session in any state |
| Connector.Connector.SetLocalOverride | internal/connect/override.go:23-32 | override and control mode change together, nothing else does |
| Connector.Connector.AutoDispatch | internal/connect/override.go:40-60 | the loop over an arbitrary order of exactly the verifying sessions no override applies to computes AutoDispatch |
| Service.RebuildConverges | cmd/server/main.go:611-635 | after recovery a berth is settled exactly if allocated, fixed data and allocations are kept, nothing is released, and a second recovery changes only the version |
| Service.SwitchKeepsBerths | cmd/server/main.go:427-458 | a switch changes at most the row of its berth, and no fixed data |
| Server.App.constructor | cmd/server/main.go:84-122 | the service starts as the initial state after one recovery |
| Server.App.HandleOccupy | cmd/server/main.go:236-256 | resolves the berth by id or code and computes Occupy |
| Server.App.HandleDepart | cmd/server/main.go:272-294 | computes Depart: bill a running meter, then the three steps of leaving |
| Server.App.HandleSwitch | cmd/server/main.go:443-456 | the built sequence computes Switch |
| Server.App.RebuildLiveState | cmd/server/main.go:611-635 | the rebuilding loops compute Rebuild |
| Safety.StepSafe | cmd/server/main.go:158-184 | any request keeps books, sessions, grid, meters and bills consistent, the berths the same and all histories growing |
| Safety.RunsSafe | internal/grid/grid.go:75-123 | so does any run of requests, and closings exceed separations by one exactly while the grid is on |
| Safety.FromTheStart | internal/connect/connect.go:95-198 | from the start of the service no request is executed twice, no session is lost, the grid is safe and nothing is over-allocated, and capacity is held only for berths that exist |
| Safety.PlanAddsUp | internal/capacity/plan.go:26-51 | after any run of requests the demands over any listing of the berths and the remainder make up the shore capacity |
| OwnershipRuns.OccupyOutcome | cmd/server/main.go:245-256 | exactly when a berth is occupied and what that takes |
| OwnershipRuns.OccupyOwns | cmd/server/main.go:249-256 | keeps ownership exactly when it does not leak |
| OwnershipRuns.LeakRepaired | internal/capacity/reconciler.go:69-104 | the next reconciliation returns exactly the leaked capacity and restores ownership |
| OwnershipRuns.ReconcileIdle | internal/capacity/reconciler.go:69-104 | while ownership holds reconciliation finds nothing |
| OwnershipRuns.DepartOutcome | cmd/server/main.go:272-294 | in any state: exactly when a departure succeeds, exactly when each refusal comes, that only a berth settled without capacity is changed by one (it stays Releasing), and exactly when a bill is issued |
| OwnershipRuns.NeverLeft | cmd/server/main.go:282-289 | from a berth left Releasing every departure is refused and changes nothing of it |
| OwnershipRuns.DepartOwned | cmd/server/main.go:272-294 | under ownership a departure is all or nothing, and succeeds exactly when the berth is occupied and a running meter has something to bill |
| OwnershipRuns.ApplyThenCancel | internal/connect/connect.go:113-221 | cancelling undoes applying: same allocations, same remainder, same rows |
| OwnershipRuns.OccupyThenDepart | cmd/server/main.go:221-296 | departing undoes occupying but for the stamp |
| OwnershipRuns.SwitchOwns | cmd/server/main.go:443-456 | keeps ownership exactly when it leaves the rows alone |
| OwnershipRuns.RebuildOwns | cmd/server/main.go:611-635 | keeps ownership exactly when no berth is being allocated |
| OwnershipRuns.StepOwns | cmd/server/main.go:158-184 | any request keeps ownership exactly when it meets a condition readable beforehand |
| OwnershipRuns.RunsOwn | internal/connect/connect.go:95-279 | ownership over every orderly run |
| OwnershipRuns.HarbourInOrder | internal/berth/status.go:8-78 | after any orderly run a berth is idle exactly without an allocation, settled for its allocation's vessel, allocating exactly with a verifying session, never releasing, and within its capacity |
| OwnershipRuns.HarbourUnoccupied | cmd/server/main.go:709-720 | the shipped berths meet the conditions of the results for runs |
| Disorder.CancelTwiceBreaks | internal/connect/connect.go:200-224 | apply, cancel, apply for another vessel, cancel the first again: ownership is broken from any orderly state |
| Disorder.HarbourCancelTwice | internal/connect/connect.go:200-224 | the same from the start of the service, with concrete requests |
| Disorder.HarbourLeak | cmd/server/main.go:249-256 | occupying for a nameless vessel breaks ownership from the start of the service |
| Disorder.HarbourSwitch | cmd/server/main.go:443-456 | so does switching a berth on |
| Disorder.SwitchThenDepart | cmd/server/main.go:272-294 | switch an idle berth on and depart, from any orderly state with the grid off: the departure stops half way |
| Disorder.HarbourHalfDeparture | cmd/server/main.go:272-294 | the same from the start of the service, and the next departure is refused, too |
| Disorder.ApplyThenRebuild | cmd/server/main.go:611-635 | apply and recover: the berth is settled for nobody |
| Disorder.HarbourApplyThenRebuild | cmd/server/main.go:611-635 | the same from the start of the service, with a concrete request |
| Interleaving.InterleavedSafe | internal/connect/connect.go:95-279 | every interleaving of critical sections keeps the invariants of sessions, channels, gate, counters, meter and capacity |
| Interleaving.SessionsMean | internal/connect/connect.go:127-143 | no session is overwritten, a session has a channel exactly while undecided, and passes the gate at most once |
| Interleaving.ExecutionsMean | internal/connect/connect.go:159-192 | a request is executed at most as often as it names different vessels and as it has sessions; all executions are at most the closings of the grid and the vessels metered |
| Interleaving.VesselsDistinct | internal/meter/meter.go:53-69 | no two executed sessions have the same vessel |
| Interleaving.OneVesselOnce | internal/connect/connect.go:181-192 | under every interleaving a request whose sessions name one vessel is executed at most once |
| Interleaving.ChannelsMean | internal/connect/verify.go:8-57 | each channel is closed at most once, by the one thread that took it; a waiter always has a channel and is woken only by a decided session |
| Interleaving.EveryInterleaving | internal/capacity/capacity.go:59-107 | the counts and the capacity bound together, from the start, for every interleaving |
| Duplicates.OneLiveStep | internal/connect/connect.go:97-143 | a step keeps one live session per request exactly when it is none of three: registering beside a live session, finishing or lapsing a session that was ended and replaced |
| Duplicates.ExecutedStep | internal/connect/connect.go:200-224 | executed sessions stay alive under a step exactly when it does not cancel one of them |
| Duplicates.OnceStep | internal/connect/connect.go:95-224 | the invariant of one live session per request and executed sessions that stay alive survives a step exactly when it is none of the four |
| Duplicates.ExecutedOnce | internal/connect/connect.go:186-192 | while that invariant lasts no named request is executed twice |
| Duplicates.CountStep | internal/connect/connect.go:181-192 | the counters alone: a step keeps every named request at one execution exactly when it does not finish a session of a request executed before |
| Duplicates.RepeatsForAnother | internal/meter/meter.go:53-69 | a second execution is of another vessel than the first |
| Duplicates.UndisturbedOnce | internal/connect/connect.go:95-279 | over every interleaving without such a step each request is executed at most once |
| Overlap.ShowsEnded | internal/connect/connect.go:257-272 | the section that ends a session does to the table what the sequential call does |
| Overlap.ShowsGated | internal/connect/connect.go:149-170 | so does the gate |
| Overlap.ShowsFinished | internal/connect/connect.go:186-191 | so does the final section |
| Overlap.ShowsRegistered | internal/connect/connect.go:127-143 | so does the registration |
| Overlap.LiveShown | internal/connect/connect.go:97-105 | both levels look for the same live session |
| Overlap.ApplyAlone | internal/connect/connect.go:95-146 | an uninterrupted Apply, answered, refused, short of capacity or taken on, leaves the sessions, books and executions of the sequential call |
| Overlap.ConfirmAlone | internal/connect/connect.go:148-198 | so does a confirmation, refused at the gate, by the grid, by berth or meter, or completed |
| Overlap.CancelAlone | internal/connect/connect.go:200-224 | so does a cancel, refused or not |
| Overlap.WaitAlone | internal/connect/verify.go:8-57 | so does a wait that is refused or runs out |
| Overlap.DispatchAlone | internal/connect/override.go:40-60 | so does a dispatch pass over any order |
| Races.CheckedRegisters | internal/connect/connect.go:107-143 | an Apply past its check registers a session whatever happened since |
| Races.DuplicateRequest | internal/connect/connect.go:97-127 | any two overlapping calls for one request, acceptable and on different berths with room, give it two live sessions |
| Races.DoubleExecution | internal/connect/connect.go:97-192 | confirming both executes the request twice, or once if both name one vessel |
| Races.LateTimerLapses | internal/connect/verify.go:12-51 | a wait, a confirmation by another thread and then the timer turn a connected session into a lapsed one, which no sequential run can |
| Races.FinishRevives | internal/connect/connect.go:186-192 | a session cancelled and replaced while it is being connected comes back to life when the confirmation finishes |
| Races.LapseRevives | internal/connect/verify.go:35-51 | so does one whose timer fires after it was cancelled and replaced |
| Races.ForgottenExecution | internal/connect/connect.go:200-224 | after a late timer and a cancel the request is executed again for another vessel, with one live session before and after |
| Races.WokenByCancel | internal/connect/verify.go:26-28 | a wait is answered with success although its session was cancelled |
| Signals.NeverLost | internal/connect/connect.go:128-279 | over every interleaving each channel that was made is pending, in the hands of one thread, or closed |
| Signals.NoWakeupLost | internal/connect/verify.go:22-28 | a waiting thread can be woken exactly when its session is decided and its channel signalled; until then it is enough that the thread with the channel signals |
| Refinement.OpAlone | cmd/server/main.go:158-184 | one request of any kind, served without interference, is some sections of one thread |
| Refinement.SequentialIsInterleaved | cmd/server/main.go:158-184 | every run of requests is an interleaving with the same sessions, books and closings |

## Left out

- HTTP routing, JSON, status codes, the WebSocket handshake and the console page: only the order of calls inside the handlers is modelled.
- internal/config, internal/alarm and internal/event: defaults, texts and fan-out, which do not feed back into the state; publishing is a no-op.
- Events the grid, meter and billing write to the recorder: the recorder is modelled by itself.
- Error texts: only which error is reported.
- floating-point rounding, NaN and infinities: kVA, kWh and prices are reals.
- xxhash: a fingerprint is the hashed text itself, so hash collisions are not modelled.
- Clocks: one time is given to each call (to each step of a switching sequence), and the run log and berth stamps print it as a decimal.
- Input/output errors, torn lines and line limits of the run log: the file is the sequence of its lines, and the line codec is a parameter that round-trips.
- A berth store missing from the controller, and a breaker whose opening fails: the service wires neither.
- Sharing of session and berth objects by pointer: sessions and rows are values in maps; session ids are proved never to be given out twice.
- Interleaved grid safety, ownership and reconciliation: they are properties of calls that do not overlap.
- The berth store and the grid inside `Interleaving`: what they answer between two sections is arbitrary.
- Unlocked reads in publish.
- Plan.BuildPlan: the service sorts a local slice with the library's sort; the model inserts into a sequence, so only the sorted order is captured, not which order equal codes get.
- Metering.TierMeans: for windows given in hours from 0 to 23, which the configuration checks for the peak window only.
- Connector.Connector.WaitVerification: the sequential call covers a wait that is refused or runs out with nothing else happening; signalled waits are in `Interleaving` and `Signals`.
