# Lojix, verified

A Dafny model of the parts of Lojix that have to survive a crash, with proofs
about them over every run: the durable transition journal of the store, the
daemon's reconciliation at start, the bootstrap pipeline, the row quarantine at
open, and the text encodings that carry values across those boundaries. Nothing
here has been executed; what is claimed is what Dafny's verifier accepts.

`dafny verify dfyconfig.toml` checks the project.

## How the pieces fit

**Store.** `StoreModel` holds the tables of the durable store as maps and one
function for each locked method: it commits once, which changes the rows named
and appends one entry to the versioned commit log, or refuses and changes
nothing. `StoreTables.Store` is the store as it runs: methods that scan the
tables with loops, check, and commit. Each is proved to do what the function of
the same operation says, state and error alike. What the operations leave is
spelled out field by field in `StoreEffects`, when they are refused and with what
in `StoreRefusals`; `StoreLogging` shows that the commit log misses no write, and
`StorePayloads` what events, deliveries and records say of each other in every
reachable store. `StoreInvariant` states what
every reachable store satisfies and what callers are relied upon for
(`Disciplined`); `StorePreservation` proves that every single step of any caller
keeps it. A crash is a run that stops; opening is a function (`Open`), a method
(`Reopen`) and, by `StoreReopen`, itself a run of steps. `StoreRecovery`,
`StoreHistory`, `StoreCursors`, `StoreLedgers`, `StoreSwitch`, `StoreResumption`
and `StoreTransitions` hold the results; `StoreLimits`, `StoreShared` and
`StoreWitness` say where they end and give the runs that go beyond.

`State.history` is bookkeeping that no operation reads: which commit created
each intent, which intent a position was given to, which positions are reserved
and how many transitions a deployment has begun.

**Assumptions about the engine.** A commit is all or nothing. Asserting a
present key, or mutating or retracting an absent one, refuses the commit. Each
commit appends one log entry with the next sequence, naming the keys it touched.

**Assumptions about callers** (`StoreInvariant.Disciplined`), which the store
does not check: a phase or container event uses a position that was issued and
that no transition was given; a phase event's phase is the lifecycle passed with
it; a container event is a container event; a job row is not written for an
unknown or terminal deployment and names its deployment's generation; an
activation names one generation for its row and its root; only a transition that
is not yet acknowledged is journalled. `PhaseSafeExactly`, `OwnedPhaseStrands`,
`AppendIdempotentExactly` and `AppendDemotes` say what goes wrong otherwise.

**Bootstrap.** `BootstrapModel` gives a host (journal, temporaries of journal
writes that never finished, links, configuration, remote store, unit, evidence,
answers received) and the actions a run can take on it, each with what the
pipeline has read or done when it takes it. A run may die between any two
actions or in the middle of a journal write; `Begin` starts the next one with
nothing but what is durable. `BootstrapRuns.BootstrapRun` is the pipeline itself,
stage by stage, with nondeterministic crashes and answers; it is proved to take
only those actions, so the results of `BootstrapResults`, `BootstrapProgress`,
`BootstrapWindows`, `BootstrapPolicy` and `BootstrapEvidence` about all paths are results
about any number of its runs. A query of the remote store or of the unit that
fails is read as absent or not found, whatever is there; a positive answer is
true. `BootstrapEffects` says what each action changes. A run is `favoured` when it
is not killed, its commands succeed and its questions are answered. A running unit finishes or breaks and then stays as it is, until its machine
loses it, as a reboot does; nothing restarts or resets a broken one, and a dispatch
under the name of a loaded unit is refused. A copied closure stays present, and two
runs of one request do not overlap.

**Quarantine.** `decodes` and the decode error are functions the model knows
nothing about, of the families and of the quarantine itself. `Opening` moves rows
one commit at a time; `QuarantineInspection` is the read-only inspector.

**Text.** `StorePathShapes` and `PercentForms` say what the checks on paths and
encoded text accept without using them. `ShellText` is a reader for the part of the shell language that the
quoting uses (section 2.2 of the Shell Command Language of IEEE Std 1003.1).
`PercentText` works on the bytes of UTF-8 text (section 2.1 of RFC 3986).

## Where the code and its own words disagree

- Compaction says the local checkpoint is the complete recovery artifact once
  rows are retracted (src/lib.rs:2350-2359). It drops the commit log another
  deployment's unbound transition still needs; that store then refuses to open.
  `TruncationStrands` is the run, `DroppedLogOpensExactly` the exact condition.
- The store promises that a position belongs to one transition
  (src/lib.rs:2777-2785 refuses an occupied one). It accepts a position that is
  owned but not yet journalled. `PhaseSafeExactly` is the exact condition,
  `SharedPositionStrands` the run, and `SecondRefusedExactly` says for how long.
- A resumed bootstrap run is said to continue at the next exact stage
  (src/bootstrap.rs:2371-2372). After a crash between linking the final root and
  dropping the staged one it is refused for ever: `HandoffWindow`,
  `CollisionIsPermanent`. So it is after a crash between creating and renaming
  one of the first journal temporaries, because every process numbers them from
  0 and none is replaced: `DyingWriteStrandsExactly`, `LeftoverStrands`.
  `SucceedsUnlessStuck` lists every window of the model.
- A unit that has gone missing is said to leave a run that must be recovered
  (src/bootstrap.rs:582-583). Once its dispatch is recorded no run dispatches it
  again, and none can succeed: `LostUnitStrands`. A broken unit is as final:
  `BrokenUnitStrands`.
- Remote commands are meant to run under the caller's SSH policy
  (src/bootstrap.rs:1555-1556). A run that dies between closing the private
  configuration and writing it leaves an empty one that every later run uses:
  `PolicyExactly`, `PolicyLost`.
- A unit or closure that is there is said not to be dispatched or copied again
  (src/bootstrap.rs:2371-2372). A failing query reads as not found or absent, and
  then it is: `DispatchedAgainExactly`, `DispatchedTwice`, `CopiedAgainExactly`,
  `CopiedTwice`.
- The inspector's count is said to be the rows set aside at the next opening
  (src/inspection.rs:162-163). It counts quarantine rows that do not decode, which
  are never moved and refuse the opening: `InspectorForetells`.
- Every stage is said to be journalled again after it returns
  (src/bootstrap.rs:2444-2446). A crash after saving the overrides or the closure
  leaves that stage without an outcome for good: `OutcomeLostExactly`.
- At start the daemon is said to drop pre-activation rows (src/daemon.rs:728-729).
  It keeps those it resumes, fails to resume, or has no room to try; a refused
  resumption takes its row exactly when there is room. `ReconcilePersistedJobs`
  states it for every row, and `RefusedRowWaits` gives a row that waits.

## Model

| member | source | states |
|---|---|---|
| StoreRecovery.CrashAnywhere | src/lib.rs:2159-2183 | Stop after any delivery steps of any interleaved deployments and open: intents, journal, deliveries, records and jobs are those of a run that was not interrupted |
| StoreRecovery.OpenExactly | src/lib.rs:1595-1605 | A reachable store opens if and only if every unbound intent's creating commit is still logged and no retry counter is exhausted; a second opening commits nothing |
| StoreRecovery.DeliverySettles | src/lib.rs:1995-2157 | Bind, dispatch, append, acknowledge, requeue and reconcile never change where the store is going, whatever intent they drive |
| StoreRecovery.CompleteDelivers | src/lib.rs:2159-2168 | Driving one pending intent succeeds exactly when it is deliverable, acknowledges it, and leaves other intents, log entries and deliveries alone |
| StoreRecovery.CompleteAllDelivers | src/lib.rs:2170-2183 | Driving a listing succeeds exactly when every listed pending intent is deliverable, and then nothing is pending |
| StoreRecovery.OpenSettles | src/lib.rs:1602-1604 | Requeue, complete and reconcile in sequence reach the settled view, if and only if the store is recoverable |
| StoreRecovery.QuiescentIsSettled | src/lib.rs:2170-2183 | With nothing pending, the settled view is the store as it stands |
| StoreRecovery.RecoverableIsDeliverable | src/lib.rs:2197-2219 | Requeueing makes deliverable exactly the intents the recovery condition names, since it makes in-flight rows deliverable again |
| StoreReopen.OpenIsARun | src/lib.rs:1595-1605 | Opening, finished or refused part way, is a run of delivery steps |
| StoreReopen.ReopenedIsReachable | src/lib.rs:1567-1605 | A store reopened after a crash was reached by a longer history, so results about histories cover any number of reopenings |
| StorePreservation.StepKeeps | src/lib.rs:1918-3028 | Every disciplined step of every caller keeps the invariant: sequencing, own commits, positions, deliveries, endings, identifiers, current generations, canonical closures |
| StorePreservation.ReachableHolds | src/lib.rs:1567-1605 | Every store reached from a fresh one by any disciplined history satisfies that invariant |
| StorePreservation.TerminalRefusesPhase | src/lib.rs:2756-2776 | A terminal deployment that still has a job row has an unacknowledged transition, so a phase is refused for it |
| StorePreservation.ReconcileChangesNothing | src/lib.rs:2221-2254 | In a sound store the journal never lacks or contradicts a delivery row, so rebuilding the outbox writes nothing and refuses nothing |
| StorePreservation.SourcesFact | src/lib.rs:1862-1898 | The commits naming an unbound intent and its record are its creating commit alone, if that is logged, and none otherwise |
| StoreEffects.StepLeaves | src/lib.rs:1795-3028 | Every operation, accepted, leaves exactly what it promises, field by field and in every table, with the rows its commit names; refused, it changes nothing |
| StoreEffects.AdmissionEffect | src/lib.rs:2389-2453 | Three new identifiers, the record as asked, the cursor as given with the new generation, and a first transition with the record's place and revision |
| StoreEffects.RejectionEffect | src/lib.rs:2584-2634 | A record that ended with the terminal given, a lifecycle that tells it, its transition, and no cursor |
| StoreEffects.TerminalEffect | src/lib.rs:2470-2559 | The record ended with the terminal given, its cursor asked to finish with the phase that tells it, and one more transition at a new position |
| StoreEffects.PhaseEffect | src/lib.rs:2709-2818 | The cursor is the one given, the record has the lifecycle and no terminal, one more transition has the event's phase, position and revision, and no other deployment is touched |
| StoreEffects.BindEffect | src/lib.rs:1918-1993 | Bound to the one commit that names it with its record; a deliverable row with each field of the transition; the record marked where it is due and otherwise as it was |
| StoreEffects.DispatchEffect | src/lib.rs:1995-2038 | A deliverable row is in flight with one more attempt, any other is left alone |
| StoreEffects.AppendEffect | src/lib.rs:2040-2087 | The journal holds an event with each field of the transition at its position, and the transition stands appended |
| StoreEffects.AcknowledgeEffect | src/lib.rs:2089-2157 | Delivery and transition acknowledged together, a terminal's cursor gone, nothing else changed |
| StoreEffects.CompactionEffect | src/lib.rs:2302-2349 | With the entries that age out go exactly the containers at their positions and the acknowledged deliveries of their events, in the one commit that names them |
| StoreEffects.ActivationEffect | src/lib.rs:2965-3028 | Generation and root are there, what they displace keeps everything but its slot, and each counter is as it was or just above what was used |
| StoreEffects.ResolutionEffect | src/lib.rs:2675-2707 | The record has the revision and is otherwise as it was, and the cursor is the one given |
| StoreEffects.RequeueEffect | src/lib.rs:2197-2219 | Rows in flight are deliverable with their attempts kept; all others are as they were |
| StoreEffects.ReconciliationEffect | src/lib.rs:2221-2254 | Every journalled event has a delivery of it, and a row that was missing is deliverable and never tried |
| StoreLogging.EveryWriteIsLogged | src/lib.rs:1918-3028 | Whatever any operation changes in any table, the one commit it makes names the row |
| StorePayloads.EverythingIsTold | src/lib.rs:1845-1860 | In every reachable store each journalled event and each delivery has, field by field, what the transition bound at its marker has; its generation, cluster and node are its record's, and its phase tells its terminal |
| StorePayloads.RunTells | src/lib.rs:1918-3028 | No run changes the generation, environment, cluster or node of a deployment, and lifecycles, phases and terminals agree throughout |
| StoreRefusals.AdmissionRefused | src/lib.rs:2389-2453 | Refused exactly when a check fails, with the error of the first that does |
| StoreRefusals.RejectionRefused | src/lib.rs:2584-2634 | The same for a rejection |
| StoreRefusals.TerminalRefused | src/lib.rs:2470-2559 | The same for a terminal, where a transition is pending or an ordinal or a counter is spent |
| StoreRefusals.PhaseRefused | src/lib.rs:2709-2818 | The same for a phase, with its ten checks in order |
| StoreRefusals.BindRefused | src/lib.rs:1862-1993 | Refused exactly when no commit or more than one names the transition with its record, its delivery is taken, or its record is gone or disagrees |
| StoreRefusals.DispatchRefused | src/lib.rs:1995-2038 | Refused exactly when unbound, without its delivery or with another payload there, or out of attempts |
| StoreRefusals.AppendRefused | src/lib.rs:2040-2087 | Refused exactly when unbound or when something else lies at its position |
| StoreRefusals.AcknowledgeRefused | src/lib.rs:2089-2130 | Refused exactly when unbound, when its event is not in the journal, or without its delivery |
| StoreRefusals.OtherRefused | src/lib.rs:2258-2286 | The same for entries, containers, resolved sources, cursors and reserved positions |
| StoreRefusals.ActivationRefused | src/lib.rs:2965-3028 | Refused exactly for a closure that is not canonical, a spent identifier, or a row that is there |
| StoreRefusals.CountersAreWide | src/lib.rs:871-879 | Counters are 64 bits wide and never wrap |
| StoreHistory.TerminalIsAbsorbing | src/lib.rs:2709-2818 | Although a phase resets the terminal fields, no run changes a terminal or its lifecycle, and a terminal record has a pending last transition or no job |
| StoreHistory.JournalledExactlyOnce | src/lib.rs:2040-2087 | A position owned by an intent holds nothing or exactly its event, so a mismatch is never reported; once acknowledged and compacted away the event is never journalled again |
| StoreHistory.MarkersAreOwnCommits | src/lib.rs:1862-1993 | An intent is bound to the commit that created it, for good; an unbound one has no other candidate; markers differ and grow with the ordinal |
| StoreHistory.IdentifiersIssuedOnce | src/lib.rs:1795-1810 | Between any two steps of a run that are issued a position (admission, rejection, terminal, reservation) positions grow, deployments and generations too where issued, and what is issued next is unused in every table, intent and reservation |
| StoreHistory.OrdinalsAreContiguous | src/lib.rs:2488-2513 | A deployment's ordinals are exactly 0 to n-1 and only the last can be unacknowledged, under every interleaving of the begin operations |
| StoreHistory.RunEvolves | src/lib.rs:1918-3028 | Over any run, payloads, bound markers, acknowledgements and terminals stay, counters never decrease, and no retired event returns |
| StoreCursors.CursorRetention | src/lib.rs:2135-2157 | An admitted deployment has its job row until its terminal is acknowledged and none afterwards; a rejected request never has one |
| StoreCursors.RetiredWithAcknowledgement | src/lib.rs:2135-2155 | The row of an admitted deployment is present before and absent after the one commit that acknowledges its terminal |
| StoreLedgers.CompactionKeepsNewest | src/lib.rs:2302-2348 | Compaction keeps exactly the newest entries; with the others go exactly their containers and their acknowledged deliveries, and nothing else |
| StoreLedgers.CompactionKeepsRanges | src/lib.rs:2291-2300 | Every range above the cut reads the same before and after compaction |
| StoreLedgers.CompactionLeavesOutboxWhole | src/lib.rs:2334-2348 | After compaction every journalled deployment event still has a delivery row with its payload, and rebuilding adds nothing |
| StoreLedgers.NewestActivationIsCurrent | src/lib.rs:2965-3028 | In every reachable store an activation becomes the one current generation of its place; what it replaces is demoted with its root in the same commit; all other rows are untouched |
| StoreLedgers.ReseedSafeExactly | src/lib.rs:1720-1770 | Reseeding a lost allocation row leaves a sound store sound if and only if live generations, jobs and events reach as high as everything the scan does not read |
| StoreLedgers.ReseedReissues | src/lib.rs:1720-1770 | A concrete store in which reseeding offers an issued identifier again and the next admission is refused |
| StoreSwitch.SwitchSurvivesCrash | src/daemon.rs:896-917 | Whatever step of a self-switch reconciliation a crash falls after, reopening leaves it reconciled or waiting for the next attempt, never between |
| StoreSwitch.SwitchFinishes | src/daemon.rs:896-917 | An attempt that is not interrupted ends with one live generation, one root, an acknowledged success and no job row |
| StoreResumption.SwitchAcceptedExactly | src/daemon.rs:896-917 | An attempt is carried through if and only if the activation is recorded or can be and the deployment can be ended; it then reconciles the row if and only if what was recorded before is this activation and the deployment has no other |
| StoreResumption.RetractedRootStrands | src/daemon.rs:902-913 | Once the root of a recorded activation is retracted, no attempt is carried through in any later store |
| StoreTransitions.AdmissionDelivers | src/lib.rs:2455-2468 | In a sound store delivery of a fresh admission cannot fail, and leaves the record marked with its own commit and the cursor in place |
| StoreTransitions.TerminalDelivers | src/lib.rs:2561-2582 | In a sound store delivery of a begun terminal cannot fail, and leaves the record ended and marked and the cursor retired, so the missing-marker error never fires |
| StoreTransitions.TerminalStaysApart | src/lib.rs:2561-2582 | Ending one deployment touches no record, job or intent of another, and no generation or root |
| StoreTransitions.AdmissionStaysApart | src/lib.rs:2455-2468 | Admitting a deployment touches no record, job or intent of another, and no generation or root |
| StoreLimits.TruncationSafeExactly | src/lib.rs:2350-2359 | Dropping log entries leaves a recoverable store recoverable if and only if it keeps the creating commit of every unbound intent |
| StoreLimits.DroppedLogOpensExactly | src/lib.rs:2356-2359 | When the whole log is dropped a recoverable store still opens if and only if no intent is unbound |
| StoreWitness.TruncationStrands | src/lib.rs:2302-2359 | One admission delivered, a second pending, a compaction that retires the first one's event, and the log dropped: the store is refused for want of a source commit |
| StoreLimits.PhaseSafeExactly | src/lib.rs:2777-2785 | An accepted phase leaves the store sound if and only if its position was issued and given to no transition |
| StoreShared.SharedPositionStrands | src/lib.rs:2777-2785 | From a fresh store, a phase at the position of another deployment's pending admission is accepted, and the next opening is refused for a journal mismatch |
| StoreShared.OwnedPhaseStrands | src/lib.rs:2777-2785 | In every sound store an accepted phase at the position of a pending intent makes every opening refused |
| StoreShared.SharedPositionNeverOpens | src/lib.rs:2040-2068 | With two pending intents of different deployments at one position, no opening of any store succeeds, in whatever order the intents are listed |
| StoreShared.SecondRefusedExactly | src/lib.rs:2055-2068 | Of two intents at one position, once one is journalled the other is refused, through any run, exactly while the position is occupied |
| StoreLimits.AppendIdempotentExactly | src/lib.rs:2052-2087 | Journalling again commits nothing exactly when the intent stands appended and its event is retained |
| StoreLimits.AppendDemotes | src/lib.rs:2068-2087 | Journalling an acknowledged intent is not refused: it is demoted, and a compacted event is journalled a second time |
| StoreLimits.AcknowledgeAgainExactly | src/lib.rs:2089-2130 | Acknowledging a settled intent again is accepted exactly while its event is retained, and changes nothing |
| StoreTables.Store.constructor | src/lib.rs:1567-1594 | A new store is empty |
| StoreTables.Store.AllocateEventLogPosition | src/lib.rs:1795-1810 | Issues the next position in one commit, or refuses when identifiers are exhausted |
| StoreTables.Store.BeginAdmissionTransition | src/lib.rs:2389-2453 | Record, cursor, intent and allocation in one commit, each field as asked, or nothing changed and the first failing check |
| StoreTables.Store.BeginRejectedDeploymentRequest | src/lib.rs:2584-2634 | A record ended with the terminal given and its intent in one commit, with no cursor |
| StoreTables.Store.ScanIntents | src/lib.rs:2488-2513 | The scan finds an unacknowledged intent of the deployment if there is one, and the ordinal above the highest |
| StoreTables.Store.BeginTerminalTransition | src/lib.rs:2470-2559 | The record ended as asked, its cursor asked to finish, and an intent, in one commit, or nothing changed and the first failing check |
| StoreTables.Store.BeginDeploymentPhaseTransition | src/lib.rs:2709-2818 | The cursor given, the record at the lifecycle and an intent with the event's fields, in one commit, or nothing changed and the first failing check |
| StoreTables.Store.ScanSourceCommits | src/lib.rs:1862-1887 | The scan of the commit log collects exactly the commits naming both the intent and its record |
| StoreTables.Store.BindTransitionIntent | src/lib.rs:1918-1993 | Binds to the one source commit and asserts a delivery with each field of the intent, marks the record where due, or refuses and changes nothing |
| StoreTables.Store.DispatchTransitionIntent | src/lib.rs:1995-2038 | Marks an undelivered row in flight and counts the retry, leaves any other alone, or refuses |
| StoreTables.Store.AppendTransitionIntentJournal | src/lib.rs:2040-2087 | Journals an event with each field of the intent, together with its state, or refuses a mismatch |
| StoreTables.Store.AcknowledgeTransitionIntent | src/lib.rs:2089-2157 | Acknowledges delivery and intent and retires the cursor of a terminal in one commit, or refuses |
| StoreTables.Store.CompletePendingTransitionIntent | src/lib.rs:2159-2168 | The four delivery steps in order, stopping at the first refusal |
| StoreTables.Store.AllocateDeploymentRecord | src/lib.rs:2455-2468 | Keeps the invariant; refused exactly where beginning the admission is, changing nothing; otherwise the admission is delivered whole |
| StoreTables.Store.TerminalizeDeployment | src/lib.rs:2561-2582 | Keeps the invariant; refused exactly where beginning the terminal is, changing nothing; otherwise delivered whole, apart from every other deployment |
| StoreTables.Store.RequeueDispatchedOutbox | src/lib.rs:2197-2219 | Every in-flight row becomes deliverable in one commit, and nothing is written when there is none |
| StoreTables.Store.ReconcilePendingTransitionIntents | src/lib.rs:2170-2183 | Completes the listed intents the listing shows unacknowledged, in order, stopping at the first refusal |
| StoreTables.Store.ScanJournal | src/lib.rs:2221-2246 | Refuses if and only if two payloads claim one delivery key; otherwise finds the missing deliveries |
| StoreTables.Store.ReconcileDeploymentOutbox | src/lib.rs:2221-2254 | Adds exactly the missing deliveries in one commit, or refuses |
| StoreTables.Store.Reopen | src/lib.rs:1602-1604 | Requeue, complete, reconcile, stopping at the first refusal |
| StoreTables.Store.AppendEventLogEntry | src/lib.rs:2258-2286 | Appends a non-deployment entry and raises the position counter past it, or refuses |
| StoreTables.Store.CompactEventHistory | src/lib.rs:2302-2349 | Sorting and taking the oldest retires exactly what is not among the newest, with exactly their containers and acknowledged deliveries, and reports how many |
| StoreScans.SortedPositions | src/lib.rs:2304-2305 | An ascending sequence of exactly the given positions |
| StoreScans.OldestAreRetired | src/lib.rs:2306-2314 | The first entries in ascending order are those not among the newest to be kept |
| StoreScans.AdditionsComplete | src/lib.rs:2225-2246 | A whole journal read without disagreement has gathered exactly the missing deliveries |
| StoreTables.Store.RecordActivationOf | src/lib.rs:2965-3028 | Generation, root, counters and every demotion in one commit, or refuses |
| StoreTables.Store.RecordResolvedSourceOf | src/lib.rs:2675-2707 | Revision and cursor in one commit, or the refusal of the first check that fails |
| StoreTables.Store.UpsertDeployJob | src/lib.rs:2888-2904 | Writes the row, present or not, unless its closure is not canonical |
| StoreTables.Store.RetractDeployJob | src/lib.rs:2906-2921 | Removes the row if present and writes nothing otherwise |
| Daemon.DeployJobs.PersistReconciledSelfSwitch | src/daemon.rs:896-917 | A waiting self-switch ends reconciled; otherwise the deployment ends as succeeded with the activation's root there, or record, row and transitions are as they were |
| Daemon.DeployJobs.ReconcilePersistedJobs | src/daemon.rs:730-875 | Every row ends as its verdict says: an observed outcome ends its deployment with that outcome, unless it cannot be ended or positions run out, and then changes nothing of it; a stale row goes; a refused resumption takes it exactly when the pipelines active before plus the resumptions earlier in the list are below the cap; any other row and every unlisted deployment stay as they were |
| Daemon.DeployJobs.HandleRow | src/daemon.rs:735-873 | One row's verdict is carried out, touching no other deployment and counting one more pipeline exactly when it is resumed with room |
| Daemon.RefusedRowWaits | src/daemon.rs:850-869 | An input on which a refused row stays because the cap is reached, and goes at a start that has room |
| Daemon.DeployJobs.Terminalize | src/daemon.rs:753-795 | An observed outcome ends its deployment with exactly that outcome when nothing stands in the way, and changes nothing otherwise |
| BootstrapResults.RootMadeOnce | src/bootstrap.rs:2541-2584 | Once a staged or final root is there, no later run issues the command that makes it, and a final name is linked once |
| BootstrapResults.EffectsAtMostOnce | src/bootstrap.rs:2595-2619 | Over all runs whose queries answer truthfully, no copy is issued for a closure on the remote and no dispatch for a loaded unit |
| BootstrapResults.CopiedAgainExactly | src/bootstrap.rs:595-613 | A closure on the remote is copied again exactly when the run's last answer was a false Absent, as a failing query reads |
| BootstrapResults.OverridesSavedForGood | src/bootstrap.rs:1074-1085 | Overrides once saved are, on every path and for every later run, exactly the list written, none for a direct input, and every build ran with them |
| BootstrapResults.CommandsAgree | src/bootstrap.rs:2530-2619 | Over all runs every build was with the saved overrides, and every root command, question, copy and dispatch about the saved closure |
| BootstrapEffects.ActionChanges | src/bootstrap.rs:2500-2633 | Every action changes exactly what it is for: files, world and memory are otherwise as they were |
| BootstrapResults.DispatchedAgainExactly | src/bootstrap.rs:553 | A unit that was ever loaded is dispatched again exactly when the run was last told it is not found, as a failing query reads; while it is loaded the dispatch is refused and the unit stays as it is |
| BootstrapWindows.DispatchedTwice | src/bootstrap.rs:2806-2820 | For every boot-once request, a path on which the unit is loaded and a failing query lets the dispatch be issued again, to be refused |
| BootstrapWindows.CopiedTwice | src/bootstrap.rs:2595-2612 | For every remote request, a path on which the closure is there and a failing query lets the copy be issued again |
| BootstrapResults.EffectsInOrder | src/bootstrap.rs:2500-2633 | Over all runs of a request, tests, builds, root commands, questions and copies, questions and dispatches, and unit polls never go back to an earlier kind |
| BootstrapResults.StagesNeverGoBack | src/bootstrap.rs:2500-2633 | The same from any sound host whose calls are in order |
| BootstrapResults.ProgressChain | src/bootstrap.rs:2500-2633 | Activated rests on scheduled, on copied for a remote, on rooted, on a saved closure that was built, on tests passed, on saved overrides |
| BootstrapResults.SucceededMeans | src/bootstrap.rs:2402-2442 | Success means the root binds the closure a build printed, planned tests passed, and a boot-once unit that was dispatched for it was seen ready |
| BootstrapResults.BuildOnlyNeverActivates | src/bootstrap.rs:2586-2590 | A build-only request never copies, dispatches or queries a unit |
| BootstrapResults.TerminalIsFinal | src/bootstrap.rs:2410-2432 | After a terminal no command is issued, the terminal and the root stay, and evidence once linked is neither changed nor linked again |
| BootstrapResults.EvidenceTellsTheTruth | src/bootstrap.rs:1119-1140 | Evidence has the journal's terminal and exactly the outcomes of the stages before it |
| BootstrapResults.RootNeverReplaced | src/bootstrap.rs:1243-1269 | A final root is never replaced or removed, and a staged link is dropped only once the final name has its target |
| BootstrapSafety.StepSound | src/bootstrap.rs:2500-2633 | Every action keeps the invariant that each saved fact, link, call and terminal rests on what came before |
| BootstrapSafety.PathKept | src/bootstrap.rs:987-1000 | No path of actions takes back a journal event, a saved fact, a link, a remote closure, a unit, evidence or a terminal |
| BootstrapProgress.SucceedsUnlessStuck | src/bootstrap.rs:2402-2442 | A crashed request can still reach the terminal success if and only if it is in none of the listed windows, whether its machine may yet lose the unit or not |
| BootstrapProgress.WedgedStep | src/bootstrap.rs:952-973 | No action leads out of any of the windows, except that losing a broken unit whose dispatch is not recorded leads out of that one |
| BootstrapWindows.DyingWriteStrandsExactly | src/bootstrap.rs:952-973 | Dying between creating and renaming a journal temporary leaves no later run that succeeds exactly when there was none before or the write is among the first that a later run must make: four before the root, three before the activation, one after |
| BootstrapWindows.LeftoverStrands | src/bootstrap.rs:42 | For every request, a first run that dies in its second journal write: no later run can succeed, with nothing else in its way |
| BootstrapWindows.CollisionIsPermanent | src/bootstrap.rs:2546-2548 | With staged and final root both present, every later run leaves both as they are, issues nothing and stays without a terminal |
| BootstrapWindows.HandoffWindow | src/bootstrap.rs:1257-1264 | A death after linking the final root leaves no later run that succeeds; one after dropping the staged root leaves such a run exactly if there was one before the handoff |
| BootstrapWindows.BrokenUnitStrands | src/bootstrap.rs:652-656 | For every boot-once request, a path to a host from which it can succeed until its unit breaks; then no later run succeeds, even if the unit is lost |
| BootstrapWindows.LostUnitStrands | src/bootstrap.rs:657 | The same with a unit that is lost after its dispatch was recorded |
| BootstrapPolicy.PolicyExactly | src/bootstrap.rs:1567-1609 | Every remote question and command goes out under a private configuration, and under the written policy exactly when no run died between closing the configuration and writing it |
| BootstrapPolicy.PolicyLost | src/bootstrap.rs:1600-1605 | For every remote request, a path that ends in a question under a configuration that holds nothing |
| BootstrapWindows.OutcomeLostExactly | src/bootstrap.rs:2513-2539 | A stage whose fact was saved by a run that died is never concluded; the run that saved it concludes it exactly once it has received it and its next number is free |
| BootstrapEvidence.EvidenceUnlessBlocked | src/bootstrap.rs:2892-2919 | A terminal request whose evidence is not concluded can still conclude it if and only if no number that needs is taken by a leftover temporary |
| BootstrapProgress.Finishes | src/bootstrap.rs:2500-2633 | From every host on which nothing has stopped the run under way, runs whose commands succeed reach success in finitely many actions |
| BootstrapRuns.BootstrapRun.constructor | src/bootstrap.rs:2402-2409 | A run object starts with the empty path on a fresh host, favoured or not |
| BootstrapRuns.BootstrapRun.Run | src/bootstrap.rs:2402-2442 | Takes only enabled actions; ends only with a terminal and evidence of it; refuses only on a stuck host, a temporary left under the number it wants, or a root command that staged nothing, and never for a taken root name or a changed root, receipt or evidence; a favoured run of a host that is not stuck and has no temporaries ends in success |
| BootstrapRuns.BootstrapRun.Save | src/bootstrap.rs:952-973 | A journal write leaves its one fact as given and all others as they were, or at most its temporary; it is refused exactly when a temporary of its number is there |
| BootstrapRuns.BootstrapRun.Execute | src/bootstrap.rs:2500-2633 | Takes only enabled actions, returns normally only when no stage of the mode is due, and does so when favoured and unhindered |
| BootstrapRuns.BootstrapRun.HandOffRoot | src/bootstrap.rs:2541-2584 | With a staged or final root present issues no command; returns normally only with the root and receipt binding the closure; reports a collision exactly when both names exist |
| BootstrapRuns.BootstrapRun.LinkRootNoReplace | src/bootstrap.rs:1243-1269 | Refuses exactly when the staged link does not bind the closure or the final name exists, changing nothing, and otherwise ends with the final name alone |
| BootstrapRuns.BootstrapRun.Materialize | src/bootstrap.rs:2506-2517 | Returns the overrides, which are those the journal holds, none for a direct input; what is saved is used as it is; favoured and unhindered, it goes through |
| BootstrapRuns.BootstrapRun.Generate | src/bootstrap.rs:2693-2790 | Inputs left by an earlier run are a failed effect; a direct input generates nothing |
| BootstrapRuns.BootstrapRun.Keep | src/bootstrap.rs:2514-2516 | What a stage made is saved as given and the stage concluded |
| BootstrapRuns.BootstrapRun.Test | src/bootstrap.rs:2519-2528 | Returns normally only when no test is planned or one has passed |
| BootstrapRuns.BootstrapRun.BuildClosure | src/bootstrap.rs:2530-2539 | Returns the closure the journal holds, which a build with these overrides printed |
| BootstrapRuns.BootstrapRun.WritePrivateConfiguration | src/bootstrap.rs:1567-1609 | Uses a private configuration of an earlier run, creates a missing one, and refuses exactly an open one |
| BootstrapRuns.BootstrapRun.Copy | src/bootstrap.rs:2595-2619 | Copies only when told the remote lacks the closure, truly or not, and concludes only when it has it |
| BootstrapRuns.BootstrapRun.DispatchUnit | src/bootstrap.rs:2792-2825 | Dispatches only a unit it is told is not found, truly or not; a lost reply is pending, not failed |
| BootstrapRuns.BootstrapRun.ReconcileActivation | src/bootstrap.rs:632-662 | Concludes only on a unit seen ready; asks nothing but after the unit, thirty times at most, and leaves it pending only for want of an answer, on a unit not found, or after thirty that it is not ready |
| BootstrapRuns.BootstrapRun.Await | src/bootstrap.rs:644-661 | The loop of questions, with the same reasons to stop |
| BootstrapRuns.BootstrapRun.WriteTerminalEvidence | src/bootstrap.rs:2892-2919 | Ends with evidence of the journal's status, written once, and never meets evidence that is not its own |
| BootstrapRuns.BootstrapRun.OpenOrCreate | src/bootstrap.rs:869-942 | Opens the journal, creates it, or refuses exactly when there is none to read and none can be made, leaving everything as it was |
| BootstrapRuns.BootstrapRun.Settle | src/bootstrap.rs:2410-2432 | A completed or failed execution becomes the journal's terminal; a pending or refused one does not |
| Quarantine.InterruptionIsHarmless | src/quarantine.rs:169-211 | However many rows were moved, in whatever order, before an opening died, opening again ends in the same store |
| Quarantine.MovesConserve | src/quarantine.rs:169-211 | Every archive is kept exactly as often as before, in its family or set aside, and readable rows stay in place |
| Quarantine.OpenedIsOpened | src/quarantine.rs:153-167 | An opened store has nothing left to move, so opening twice is opening once |
| Quarantine.SetAsideNumbers | src/quarantine.rs:184-189 | The rows set aside from one place stay numbered from 1 without gaps, so the asserted key is always new |
| Quarantine.OpenedKeepsEvidence | src/quarantine.rs:169-211 | A row that is not read is kept with its archive and the reason under the next number of its place, one that is read stays, what was set aside before stays, and nothing else is set aside |
| QuarantineInspection.InspectorForetells | src/inspection.rs:182-193 | The inspector's count over all twelve tables is how many rows the next opening moves if and only if every quarantine row decodes |
| QuarantineInspection.InspectRows | src/inspection.rs:501-584 | Reports a missing, empty, unreadable, readable or partly undecodable table, with its counts and the reason of the first row listed that fails |
| Quarantine.Opening.QuarantineUndecodable | src/quarantine.rs:169-211 | Moves exactly the unreadable rows of one family and no row of another, or is refused, changing nothing, exactly when there is one and a quarantine row does not decode |
| Quarantine.Opening.QuarantineUndecodableRows | src/quarantine.rs:153-167 | Refused exactly when a quarantine row does not decode and some family row is unreadable; otherwise reaches the opened store, conserving every archive |
| Quarantine.StoredKeysDistinct | src/quarantine.rs:41-48 | Stored quarantine keys of family rows are equal only for equal table, key and number |
| QuarantineKeys.KeysInjective | src/quarantine.rs:41-48 | The joined key determines its parts for slash-free tables, whatever the row's own key holds |
| QuarantineKeys.FamiliesSlashFree | src/quarantine.rs:153-167 | Every family's table is slash-free, and two keys that collide when one is not |
| QuarantineKeys.DecimalExactly | src/quarantine.rs:41-48 | A number in a key is its decimal numeral, with no zero in front |
| StorePathShapes.CanonicalExactly | src/inspected_text.rs:133-151 | A text is an item exactly when it splits into the store's directory, a 32-digit hash, a dash and a name, and it does so in one way only |
| StorePathShapes.CredentialsExactly | src/inspected_text.rs:45-52 | A text names credentials exactly when one of nine terms stands in it, in letters of either case |
| ShellText.QuotedIsOneWord | src/bootstrap.rs:401-403 | Any text, quoted, is read back by the shell as the one word it is |
| ShellText.CommandReads | src/bootstrap.rs:507-513 | A command spelled of plain and quoted parts is read back as their meanings, word for word |
| BootOnceScript.NestedQuotingIsUndone | src/bootstrap.rs:471-513 | The remote shell hands the script on as one unchanged word, and the shell running it gives each variable exactly its text |
| PercentText.EncodingRoundTrip | src/bootstrap.rs:409-420 | Text comes back from encoding exactly when it has no percent sign, and nothing does otherwise |
| PercentForms.EncodingExactly | src/bootstrap.rs:409-420 | Exactly the percent sign, plus, slash and equals sign are escaped, by their two digits in upper case, and every other byte stays |
| PercentForms.DigitsExactly | src/inspected_text.rs:75-100 | A byte is read as a digit exactly when it is that digit in either case |
| PercentForms.EscapesExactly | src/inspected_text.rs:75-100 | An escape is read as exactly the byte whose two digits follow the percent sign |
| PercentForms.TextExactly | src/inspected_text.rs:98-99 | Bytes are text exactly when they are the UTF-8 of some scalar values (section 3 of RFC 3629) |
| PercentText.DecodedExactly | src/inspected_text.rs:75-100 | Text decodes to given bytes exactly when it spells them and they are UTF-8 with no percent sign |
| PercentText.DecodedIsFixed | src/inspected_text.rs:98-99 | What decoding gives, decoding again leaves alone |
| PercentText.DecodeOnce | src/inspected_text.rs:75-100 | The index loop computes that decoding, malformed escapes included |
| PercentText.SpellingHidesNothing | src/inspected_text.rs:103-110 | However bytes are spelled, the text is suspect exactly when they name a credential, are not text, or keep a percent sign |
| PercentText.EncodingJudgedAlike | src/inspected_text.rs:103-110 | Encoded text is judged as the text itself, unless it has a percent sign |

## Left out

- StoreModel.Commit: table keys are tuples of numbers, not the joined strings of `outbox_key` and `transition_intent_key`, and a state marker is its commit sequence alone.
- StoreModel.Dispatch: a refused dispatch does not record that the counter is stuck; `OpenExactly` carries exhausted counters as part of its condition.
- StoreTables.Store.AllocateDeploymentRecord: the checks that the record is still there after delivery are left out, since `AdmissionDelivers` shows they cannot fail.
- StoreTables.Store.TerminalizeDeployment: the history maintenance that follows is a separate step, so that a crash may fall between.
- StoreTables.Store.CompactEventHistory: parked compaction and checkpoints inside the engine are left out; what they do to the commit log is the separate step `TruncateLog`, with any set of entries kept.
- StoreLedgers.NewestActivationIsCurrent: `append_live_generation` and `append_gc_root`, which add a generation without demoting any and a root without a generation, are not steps.
- StoreCursors.CursorRetention: a retraction of a live row by a caller is excluded, because `retract_deploy_job` does not look at the record.
- StoreSwitch.SwitchSurvivesCrash: assumes that opening succeeds, which `OpenExactly` characterises.
- Daemon.DeployJobs.ReconcilePersistedJobs: verdicts on rows, unit observation and `resume_deploy_job` are inputs; src/schema_runtime.rs is not part of this model.
- BootstrapProgress.SucceedsUnlessStuck: of file modes only the private configuration's is modelled. Ownership, full disks and other faults of the file system are not, nor what a remote collects of a copied closure. Success is the journal's terminal; `EvidenceUnlessBlocked` is about what follows it.
- BootstrapPolicy.PolicyExactly: a configuration written in part counts as not written.
- BootstrapRuns.BootstrapRun.BuildClosure: the evaluation of the derivation and the checks of the printed path are one answer, a closure or none.
- BootstrapRuns.BootstrapRun.Generate: Horizon projection, secrets and hashing are one answer, any overrides or a failure.
- BootOnceScript.NestedQuotingIsUndone: reads the assignments the script opens with; what follows them is any text, since it uses rules of the shell outside the reader.
- QuarantineInspection.InspectorForetells: about tables that can be read; one that cannot is reported as such and counts nothing.
- Pins, unpins, retirements, test runs, configuration and subscriptions: not modelled; their rows take part only in quarantine.
- Sockets, actors, peer credentials, systemd observers, Nix and SSH argument vectors: not modelled; commands are their effects.
- `existing_symlink_free` and the other path admissions: they decide on file metadata, which is not modelled.
