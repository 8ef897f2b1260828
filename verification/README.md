# Verified model of the Tilda transaction controller

The repository edits live pages through a remote it does not trust. An edit is planned, a durable
one-shot claim is taken, one write is sent, the target is read again, and the outcome is journaled;
nothing is ever retried. This project models that controller in Dafny and proves what it promises.
`dafny verify dfyconfig.toml` checks everything.

## What is modelled

- **ChangeSets** (`ChangeSetStore`, `ChangeSetCalls`, `ChangeSetInvariant`, `ChangeSetSafety`,
  `ChangeSetOutcomes`, `ChangeSetRuns`, `ChangeSetGuarantees`, `ChangeSetVerdicts`,
  `ChangeSetRoundTrip`, `ChangeSetDrift`, `ChangeSetPlans`, `ChangeSetAnswers`, `ChangeSetRecords`,
  `ChangeSetEngine`). Each call is
  specified as the list of its durable and remote steps, in order, and its result. A crash performs
  a prefix of the list, and a journal write may also be cut before or after its link, which leaves a
  temporary file that makes the journal unreadable. Any number of processes share the directory and
  its lock file; a crash loses the vault of its process and leaves the lock, which an operator
  clears once the holder is gone. A durable write may also fail and end its call alone, with
  process, vault and earlier steps intact; and publications may take idempotency keys between calls.
  `ChangeSetEngine.Engine` is the mutable engine, proved to take exactly the specified steps.
- **Learning journal** (`LearningJournal`, `LearningJournalScan`, `LearningJournalSafety`,
  `LearningJournalRescan`, `LearningJournalBlocked`, `LearningJournalAnswers`). Processes interleave between file-system
  calls: scan, key lock, target lock, rescan, write, hold, finish, release. A scan is one event;
  `LearningJournalRescan` shows that one which reads the files while others move on tells no less.
- **Learning run** (`LearningContent`, `LearningSession`, `LearningRun`). Capture, mutate, replay and
  restore over a target that others may edit and whose writes may land, not land or land wrongly.
- **Task authority** (`TaskScope`, `TaskAuthority`, `AuthorityRuns`, `AuthorityGuarantees`,
  `AuthorityExpiry`, `AuthorityAnswers`, `TaskAuthorityManager`, `ReferenceControllers`). Scopes, revocation tokens,
  pinning leases, the browser lease, and the lineage of a reference clone and its cleanup,
  interleaved at every await.
- **Editors and scanners** (`Text`, `LiteralEdits`, `TagStructure`, `CodeEditPlan`, `EntityDecoding`).
- **Zero planner and validator** (`ZeroModel`, `ZeroPlan`, `ZeroPlanned`, `ZeroTransition`, `ZeroAgreement`,
  `ZeroClones`, `ZeroValidator`, `ZeroWitnesses`). Two separately written pieces of code that must
  agree.
- **Inventory** (`Decimal`, `CanonicalInventory`, `InventoryBinding`), **publication** (`Publication`,
  `PublicationRuns`, `PublicationAnswers`, `PublicationController`) and **page lifecycle** (`PageLifecycle`).

## How the program is abstracted

- SHA-256 is injective: a digest is represented by the value it stands for, or by a number that only
  equality is asked of. UUIDs, tokens, leases and receipts are numbers that were never used before.
- A thrown error is a `Result`. Code between two awaits is one atomic step. Every answer of the
  remote, of the clock and of an opaque check is an input, so each theorem holds for all of them.
- `mkdir`, exclusive create and no-clobber link are atomic.
- Text is a sequence of Unicode scalar values; JSON objects are ordered entries; numbers in Zero
  geometry are integers.
- `GuardLive`, `Fresh` and the like read the clock where the program does; the two reads around a
  lease are two inputs.

## Where the code and a reader's expectation part

Each of these is an exact condition proved for all inputs, with a concrete input or run that meets it.

- A verify that finds drift on an APPLIED, VERIFIED or ROLLED_BACK ChangeSet does not report a failed
  verification: its own append is refused as corrupt state first (`VerifyRefusedExactly`;
  `DriftIsRefused` reaches it).
- An expired authority that nothing pins counts as gone as soon as anything looks at it, but mint,
  replace and clear ask about the lineage first and are refused exactly while a clone is under way or
  pending, however often they are called (`LineageBusyExactly`, `ExpiredStandsAsideExactly`,
  `GrantCallsNeverRecover`, `LookRecovers`; `ExpiredCloneBlocksMint` reaches it).
- The Zero validator names an operation from the change alone, so a property patch of a text link or
  of a shape breakpoint, and a generic clone of a shape, need the older operation's permission
  (`PlannedPatchIsAccepted`, `CloneAcceptedExactly`; `LinkPropertyIsReclassified`,
  `ShapeCloneIsReclassified`).
- A clone of an element that has a twin is planned but never accepted (`CloneAcceptedExactly`;
  `TwinCloneIsRefused`).
- A link patch over a value that was neither a string nor absent, and a breakpoint patch over
  anything but a number, are accepted but cannot be undone (`RestoreAcceptedExactly`;
  `NumericLinkIsLost`, `TextBreakpointIsLost`).
- A removal that leaves a gap in the keys is accepted but cannot be undone (`RemovalUndoneExactly`;
  `GapCannotBeRefilled`).
- A scan of the learning journal is rejected exactly when an entry file is torn, or a final entry says
  that its claim was finished before it was started, or the directory holds more than 10,000 files
  (`ScanRejectsExactly`; under a clock that does not go back while a claim is open, only the first and
  the last: `ForwardScanRejectsExactly`). All three are for good and for every target: a torn file that
  nobody will complete (`TornIsForGood`; `CrashInClaimBlocksAll` reaches it), a backdated file
  (`BackdatedIsForGood`; `BackwardClockBlocksAll` reaches it with one completed claim) and a full
  directory (`FullIsForGood`; `JournalFillsUp` reaches it with settled claims alone).
- A journaled plan is found under its key exactly when it can be read and the key names it, or names
  nothing yet while every journal can be read (`PlanIsFoundExactly`). A crash before the key is written
  leaves it to be taken by something else, and then the plan is never found again
  (`CrashLosesPlanKey` reaches it).
- A recipe stays registered under a learning claim that is not completed exactly when it reached the
  registry and then the registry's report, the second lineage check or the completion failed
  (`Register`; `RecipeOutlivesClaim` reaches it).

## Model

| member | source | states |
|---|---|---|
| ChangeSetInvariant.SafeStepKeeps | src/core/store.ts:131-149 | Every durable or remote step that is safe when taken keeps the whole invariant: legal histories, outcomes backed by claims, one use per key, plan keys unique, snapshots and private material bound, write budget. |
| ChangeSetInvariant.HistoryExtended | src/core/store.ts:611-627 | An accepted append extends a gap-free legal path by one step of the transition table. |
| ChangeSetInvariant.SameIdentity | src/core/store.ts:354-378 | All events of one journal carry the same identity fields. |
| ChangeSetInvariant.BudgetKept | src/core/store.ts:633-673 | A safe step keeps: each kind of write at most once per ChangeSet, and never before its claim. |
| ChangeSetSafety.ApplyCallSafe | src/core/engine.ts:208-436 | Whatever the remote answers, every step of an apply call is safe at the moment it is taken, so a crash anywhere leaves the invariant. |
| ChangeSetSafety.VerifyCallSafe | src/core/engine.ts:438-464 | The same for verify. |
| ChangeSetSafety.RollbackCallSafe | src/core/engine.ts:466-684 | The same for rollback. |
| ChangeSetSafety.PlanCallSafe | src/core/engine.ts:112-206 | The same for plan, including the withdrawal of a plan whose key turns out to be bound elsewhere. |
| ChangeSetOutcomes.ApplySendsExactly | src/core/engine.ts:223-333 | An apply call writes if and only if the ChangeSet is PLANNED, unclaimed, its key free or its own, its material present and the fresh read is the exact baseline and revision; a recovery restore follows if and only if the write was acknowledged with a wrong state. |
| ChangeSetOutcomes.RollbackSendsExactly | src/core/engine.ts:480-625 | A rollback call restores remotely if and only if it is unclaimed, not PLANNED or ROLLED_BACK, its snapshot is bound, the fresh read is the exact after-state and the private material is present. |
| ChangeSetOutcomes.PlanAndVerifyNeverSend | src/core/engine.ts:112-206 | Neither plan nor verify ever writes to the remote. |
| ChangeSetOutcomes.ApplyJournals | src/core/engine.ts:256-435 | With a clock that does not go back and a journal that is not full, no append of an apply is refused, and every write it sent is followed by the record of an outcome. |
| ChangeSetOutcomes.RollbackJournals | src/core/engine.ts:516-683 | The same for rollback. |
| ChangeSetOutcomes.VerifyRefusedExactly | src/core/engine.ts:438-463 | A verify append is refused if and only if the record is APPLIED, VERIFIED or ROLLED_BACK and the reread hash drifted; nothing is written then. |
| ChangeSetOutcomes.ApplyNeverFindsCorruption | src/core/engine.ts:228-253 | The branches for an applied ChangeSet without its claim and for private material that contradicts the journal are unreachable. |
| ChangeSetOutcomes.RollbackNeverFindsCorruption | src/core/engine.ts:485-514 | The same for a rolled-back ChangeSet without its claim, and for snapshots and material that do not match. |
| ChangeSetOutcomes.ApplyReplayNeedsVault | src/core/engine.ts:244-245 | Without the private material of its process a claimed apply stops before it reads or writes anything. |
| ChangeSetOutcomes.RollbackReplayIgnoresVault | src/core/engine.ts:516-575 | A claimed rollback is reconciled the same way whatever the vault holds. |
| ChangeSetOutcomes.ApplyReturnsJournal | src/core/engine.ts:208-436 | The record that a successful apply returns is the last one in the journal when the call ends. |
| ChangeSetOutcomes.RollbackReturnsJournal | src/core/engine.ts:466-684 | The same for rollback. |
| ChangeSetOutcomes.FindPlanFailsExactly | src/core/store.ts:809-829 | A plan key lookup fails if and only if a journal it must read is torn; two plans under one key, or a mapping to the wrong plan, never occur. |
| ChangeSetOutcomes.PlanIsIdempotent | src/core/engine.ts:116-132 | The very next call: a plan just made under a key is found by the same request under the same authority, and refused to any other. |
| ChangeSetPlans.PlanIsFoundForGood | src/core/engine.ts:116-132 | Once a plan has its key, then over any run and from any process a plan call under that key finds it with its identity unchanged and writes nothing; it is refused exactly for another request or authority, or a torn journal. |
| ChangeSetPlans.KeysArePermanent | src/core/store.ts:562-600 | Over any run a bound key keeps what it is bound to, and the journal of the plan it names only grows. |
| ChangeSetPlans.PlanIsFoundExactly | src/core/store.ts:809-829 | A journal that carries a plan key is what the key finds if and only if it is readable and the key names it, or names nothing while all journals are readable. |
| ChangeSetPlans.CrashLosesPlanKey | src/core/store.ts:578-600 | A run that reaches the other side: a crash between the first record and the key, then a publication under the key; the plan is there, whole and PLANNED, and is never found again. |
| ChangeSetRuns.ReachableInv | src/core/store.ts:499-517 | The invariant holds after every run of any number of processes, with crashes between or inside writes and stale locks cleared by an operator. |
| ChangeSetRuns.LitterKeeps | src/core/store.ts:131-149 | A journal write cut off before or after its link leaves the invariant. |
| ChangeSetRuns.UndoIsSafe | src/core/engine.ts:190-204 | At whichever write a plan fails, taking back its directory, material and snapshot is safe step by step. |
| ChangeSetRuns.FailKeeps | src/core/store.ts:499-517 | A durable write that fails, with or without its temporary file left behind, ends the call, keeps the vault and keeps the invariant. |
| ChangeSetGuarantees.AtMostOneWrite | src/core/engine.ts:323-406 | Over every run each ChangeSet is sent at most one apply, one recovery restore and one rollback restore, and none without its claim. |
| ChangeSetGuarantees.JournalsAreLegal | src/core/store.ts:843-861 | In every reachable state each journal is a gap-free path of the transition table with constant identity, APPLIED and VERIFIED only with an apply claim and exact after-verification, ROLLED_BACK only with a rollback claim and exact before-verification. |
| ChangeSetGuarantees.OneCallAtATime | src/core/store.ts:499-517 | Two processes never have steps outstanding at once. |
| ChangeSetGuarantees.ClaimedCallsSendNothing | src/core/store.ts:675-714 | In every reachable state a call that finds its claim taken sends nothing. |
| ChangeSetGuarantees.NoCorruptionIsReported | src/core/engine.ts:228-236 | In every reachable state no call reports a missing claim or mismatched material. |
| ChangeSetGuarantees.ClaimsArePermanent | src/core/store.ts:665-673 | A claim, its key and the journal behind it survive everything that follows; the journal only grows. |
| ChangeSetGuarantees.RollbackIsFinal | src/core/store.ts:51-57 | Once ROLLED_BACK, a ChangeSet stays rolled back. |
| ChangeSetGuarantees.AppliedHashIsFinal | src/core/store.ts:388-390 | The applied hash is written at most once. |
| ChangeSetVerdicts.ApplyVerdictIsWhatWasSeen | src/core/engine.ts:245-435 | The record an apply leaves tells a later verify to expect a state if and only if that state is the baseline or the intended one, was the last thing the call saw, and neither an unstable write nor a recovery that left the new state puts it in doubt. |
| ChangeSetVerdicts.RollbackVerdictIsWhatWasSeen | src/core/engine.ts:498-683 | The same for rollback: expected exactly what was last seen, unless the restore was unstable. |
| ChangeSetVerdicts.VerifySucceedsExactly | src/core/engine.ts:438-463 | With a clock that does not go back and a journal that is not full, a verify succeeds if and only if the target shows the state that the last record is settled on. |
| ChangeSetRoundTrip.PlanApplyRollback | src/core/engine.ts:112-684 | With an honest remote, an unkeyed plan, its apply and its rollback under two free keys all succeed: the journal is exactly PLANNED, APPLIED, ROLLED_BACK, one apply and one restore were sent, and the vault is as before. |
| ChangeSetDrift.CallRuns | src/core/store.ts:499-517 | A call that nobody interrupts is a run of the machine that performs the specified steps in order and gives the lock back. |
| ChangeSetDrift.DriftIsRefused | src/core/engine.ts:438-463 | A run that ends APPLIED with a drifted target, where verify is refused and leaves no record. |
| ChangeSetAnswers.ForeignKeyIsRefused | src/core/store.ts:683-697 | A non-dry apply or rollback whose claim belongs to another key is refused with recovery required, and nothing is read from the remote, written or journaled. |
| ChangeSetAnswers.TakenKeyIsRefused | src/core/store.ts:675-683 | A key that already means something else, a plan or another action, is refused as a conflict with no effect. |
| ChangeSetAnswers.ApplySuccessIsOwned | src/core/engine.ts:208-436 | Every non-dry apply that succeeds under a key leaves the claim of the apply under that very key. |
| ChangeSetAnswers.RollbackSuccessIsOwned | src/core/engine.ts:466-684 | The same for rollback. |
| ChangeSetAnswers.SuccessBelongsToItsKey | src/core/store.ts:633-673 | The same for every process in every reachable state. |
| ChangeSetAnswers.SuccessIsOwnedForGood | src/core/store.ts:665-697 | Over every run: once a non-dry call has succeeded under a key, the claim is that key's after whatever follows. |
| ChangeSetRecords.CallsNeedAJournalAndAKey | src/core/engine.ts:208-228 | What apply and rollback answer, without effect, to an unknown or torn ChangeSet, a dry run, and a missing or malformed key. |
| ChangeSetRecords.ApplyNeedsAPlan | src/core/engine.ts:228-256 | With a usable key: APPLIED and VERIFIED are reported as they stand, FAILED and ROLLED_BACK are not applicable, a plan without its private material or an unreadable target is refused. |
| ChangeSetRecords.StaleApplyIsRefused | src/core/engine.ts:304-322 | A first apply over another state, or over the baseline at another revision, is refused before anything is claimed or written. |
| ChangeSetRecords.ApplyJournalsExactly | src/core/engine.ts:208-436 | With room in the journal an apply journals a record if and only if it is not dry, PLANNED with its material, readable, and its key owns the claim, or is free over a fresh baseline. |
| ChangeSetRecords.ApplyTellsTheTruth | src/core/engine.ts:245-435 | Whatever an apply journals: APPLIED with the exact check if and only if the intended state was the last thing seen and not in doubt, else FAILED under the one code that names what happened, with what was seen; the answer is that record or that code's error, changed exactly when this call wrote; the private material goes exactly when the baseline is back. |
| ChangeSetRecords.RollbackRefusals | src/core/engine.ts:480-500 | With a usable key: ROLLED_BACK is reported as it stands, an unreadable target is refused. |
| ChangeSetRecords.StaleRollbackIsRefused | src/core/engine.ts:577-604 | A first rollback acts on the baseline for PLANNED, the new state for APPLIED and VERIFIED, either for FAILED; anything else is stale, an APPLIED ChangeSet back at its baseline included; the new state needs the private material. |
| ChangeSetRecords.RollbackJournalsExactly | src/core/engine.ts:516-683 | With room in the journal a rollback journals a record if and only if its key owns the claim and the finding is new, or is free over a state it may act on. |
| ChangeSetRecords.RepeatedFindingIsNotJournaled | src/core/engine.ts:516-575 | A claimed rollback whose finding is already the last record journals nothing and repeats that error. |
| ChangeSetRecords.RollbackTellsTheTruth | src/core/engine.ts:498-683 | Whatever a rollback journals: ROLLED_BACK if and only if the baseline was the last thing seen and not in doubt, else FAILED under the code that names what happened; the answer agrees, and the private material goes exactly on ROLLED_BACK. |
| ChangeSetRecords.VerifyExpects | src/core/engine.ts:71-97 | What a verify expects of each state: the baseline before and after the edit, the new state in between, after a failure what that failure proved, and nothing after an ambiguous one. |
| ChangeSetRecords.ExactVerifyRecords | src/core/engine.ts:438-463 | With room in the journal an exact verify appends one record, makes APPLIED VERIFIED, leaves any other state, and answers with that record. |
| ChangeSetRecords.DriftIsRecorded | src/core/engine.ts:438-463 | Drift of a PLANNED or FAILED ChangeSet is recorded without changing its state, and reported as a failed verification. |
| ChangeSetRecords.VerifyRefusals | src/core/engine.ts:438-448 | Verify of an unknown, torn, ambiguous or unreadable ChangeSet is refused without effect. |
| ChangeSetRecords.PlanRefusals | src/core/engine.ts:112-160 | A malformed key, an unreadable target, an unbound adapter plan and a plan that changes nothing are refused without effect. |
| ChangeSetRecords.PlanTellsTheTruth | src/core/engine.ts:133-206 | A new plan leaves exactly one PLANNED record of the request and the baseline read, its snapshot, its material and its key, and answers with that record; under a key that was bound meanwhile it leaves none of them. |
| ChangeSetEngine.Engine.Plan | src/core/engine.ts:112-206 | The engine object performs exactly the steps of the plan specification, in order, and returns its result. |
| ChangeSetEngine.Engine.Apply | src/core/engine.ts:208-436 | The engine object applies by exactly the specified steps; what those steps answer, to which key, is stated by ForeignKeyIsRefused, ApplySuccessIsOwned, ApplyJournalsExactly and ApplyTellsTheTruth. |
| ChangeSetEngine.Engine.JournalApply | src/core/engine.ts:323-435 | The classification after the write: unstable, landed, unchanged, ambiguous, recovered, unproven. |
| ChangeSetEngine.Engine.Verify | src/core/engine.ts:438-464 | The same for verify. |
| ChangeSetEngine.Engine.Rollback | src/core/engine.ts:466-684 | The engine object rolls back by exactly the specified steps; what they answer, to which key, is stated by ForeignKeyIsRefused, RollbackSuccessIsOwned, RollbackJournalsExactly and RollbackTellsTheTruth. |
| ChangeSetEngine.Engine.ClaimAction | src/core/store.ts:633-673 | Binds the key first and takes the claim second. |
| ChangeSetEngine.Engine.AppendChangeSet | src/core/store.ts:611-627 | Appends exactly when the record and the transition are accepted, and otherwise changes nothing. |
| ChangeSetEngine.Engine.Withdraw | src/core/store.ts:597-603 | Takes back the journal, the private material and the unreferenced snapshot of a refused plan. |
| LearningJournal.AddClaimSound | src/learning/journal.ts:660-688 | A permitted claim keeps the journal sound: keys unique, one file per step, every earlier history of the target settled. |
| LearningJournal.AddFinalSound | src/learning/journal.ts:544-571 | A final entry of the live claim keeps the journal sound. |
| LearningJournal.FillSound | src/learning/journal.ts:281-296 | Completing, tearing or failing to sync an entry file keeps the journal sound. |
| LearningJournal.PermittedClaimIsFresh | src/learning/journal.ts:700-736 | When the rescan permits a claim, no history has its key and every history of its target is settled. |
| LearningJournal.ReleaseKeepsLocks | src/learning/journal.ts:573-598 | Releasing in the program's order, past any failure, never frees another process's lock. |
| LearningJournal.AcquireKeepsLocks | src/learning/journal.ts:738-768 | Taking the key lock and then the target lock keeps each held directory with its one maker. |
| LearningJournal.RunKeepsInv | src/learning/journal.ts:628-698 | The invariant of locks, journal and processes is kept by every interleaving under any clock, with the date check and the limit of 10,000 files that every scan makes. |
| LearningJournalScan.LatestEntries | src/learning/journal.ts:471-505 | The scan succeeds exactly on sound histories, and then returns the latest entry of each. |
| LearningJournalScan.LatestOf | src/learning/journal.ts:480-503 | One history passes exactly when it is one claim with at most one final entry of the same identity. |
| LearningJournalSafety.AtMostOneLiveClaim | src/learning/journal.ts:628-698 | Over every run two attempts never hold claims on one target, or under one key, at the same time. |
| LearningJournalSafety.OneHistoryPerKey | src/learning/journal.ts:298-400 | A key names one history for good: one claim, then at most one final entry of the same identity. |
| LearningJournalSafety.AllButLastSettled | src/learning/journal.ts:660-688 | On each target every history but the last is COMPLETED or FAILED. |
| LearningJournalSafety.CrashAbandons | src/learning/journal.ts:507-598 | A process that dies while its claim is open leaves the history abandoned. |
| LearningJournalSafety.AmbiguousAbandons | src/learning/journal.ts:540-542 | Starting an AMBIGUOUS final entry abandons the history too. |
| LearningJournalSafety.AbandonedPersists | src/learning/journal.ts:544-571 | Nothing that anybody does settles an abandoned history. |
| LearningJournalSafety.QuarantineIsPermanent | src/learning/journal.ts:660-688 | Once a history is abandoned, no later claim on its target is ever admitted. |
| LearningJournalSafety.ScanRejectsExactly | src/learning/journal.ts:700-736 | In every reachable state, under any clock, a scan is rejected if and only if an entry file is torn, or a final entry is dated before its claim, or there are more than 10,000 files. |
| LearningJournalSafety.ForwardScanRejectsExactly | src/learning/journal.ts:362-370 | If no claim is finished at an earlier clock reading than it was started at, only torn files and the limit of 10,000 stop a scan. |
| LearningJournalBlocked.FullIsForGood | src/learning/journal.ts:708-710 | Past 10,000 entries no scan ever succeeds again, and no claim is added on any target but by a process whose rescan had already passed. |
| LearningJournalBlocked.JournalFillsUp | src/learning/journal.ts:708-710 | Such a state is reached by 5,001 settled claims on as many targets, every file whole and nobody active; from there no claim is ever admitted. |
| LearningJournalBlocked.TornIsForGood | src/learning/journal.ts:717-724 | A torn entry file that no process can complete stays torn, and admits no claim on any target again. |
| LearningJournalBlocked.BackdatedIsForGood | src/learning/journal.ts:367-370 | A final entry dated before its claim is never rewritten, and admits no claim on any target again. |
| LearningJournalBlocked.BackwardClockBlocksAll | src/learning/journal.ts:544-571 | A run that reaches it: one claim completes under a clock that was set back meanwhile; both files are whole, nobody is active, and no claim is ever admitted again. |
| LearningJournalBlocked.CrashInClaimBlocksAll | src/learning/journal.ts:281-296 | A run that reaches it: one process dies while its claim file is open, and every later claim on every target is refused. |
| LearningJournalRescan.SlowRescanIsSound | src/learning/journal.ts:660-674 | A rescan that lists the names once and reads each file at any later moment, while others move on, clears a claim only if the whole invariant holds with the claim cleared at the end. |
| LearningJournalSafety.UncontendedClaimCompletes | src/learning/journal.ts:628-698 | A permitted claim whose two locks are free, if nobody interferes and no call fails, goes live, settles its history and gives both locks back. |
| LearningJournalAnswers.ProceedsExactly | src/learning/journal.ts:628-688 | The answer to a claim lets it proceed if and only if the scan succeeds, the key is unknown and the target is not quarantined. |
| LearningJournalAnswers.KnownKeysAnswer | src/learning/journal.ts:660-680 | In a sound, readable journal a key that was ever claimed is a conflict for any other request, and answers the same one with its outcome, or with quarantine while it is open or ambiguous. |
| LearningJournalAnswers.OutcomeAnswersForGood | src/learning/journal.ts:660-688 | Over every run a learning that was COMPLETED or FAILED answers so for good, whenever the journal can be scanned. |
| LearningJournalAnswers.RefusedTargetGivesKeyBack | src/learning/journal.ts:654-697 | An attempt that cannot take or mark the target lock gives the key lock back and leaves everything else as it was. |
| LearningJournalAnswers.RefusedRescanGivesBothBack | src/learning/journal.ts:660-697 | An attempt whose rescan refuses the claim gives both locks back and leaves everything else as it was. |
| LearningContent.IntendedDiffers | src/learning/adapter-session-learning-provider.ts:486-534 | The intended test state always differs from the state it was computed from. |
| LearningContent.IntendedIsOneChange | src/learning/adapter-session-learning-provider.ts:486-534 | For all four adapters the intended state exists exactly when the chosen value can take its change, and then is that one change of that value with everything else the same. |
| LearningContent.IntendedIsAccepted | src/learning/adapter-session-learning-provider.ts:572-613 | The readback check never rejects a write that landed exactly as intended, for all four adapters. |
| LearningContent.WritesAreExact | src/learning/adapter-session-learning-provider.ts:536-561 | On an obedient target the test write leaves the intended state and the restore leaves the exact baseline. |
| LearningSession.Session.CaptureBefore | src/learning/adapter-session-learning-provider.ts:374-382 | Captures what was just read, writes nothing, and runs once. |
| LearningSession.Session.PerformTestAction | src/learning/adapter-session-learning-provider.ts:384-393 | Writes at most once, only over the baseline just read; succeeds if and only if the target was read at the baseline, written, and read back as the one intended state. |
| LearningSession.Session.ReplayRecipe | src/learning/adapter-session-learning-provider.ts:395-409 | Restores and repeats the change with at most two writes; succeeds if and only if every read on the way was the one expected, and then with the same state again. |
| LearningSession.Session.RestoreBaseline | src/learning/adapter-session-learning-provider.ts:411-426 | Succeeds if and only if the baseline was read, or the test state was read, written over and the baseline read back; a state that is neither is left untouched. |
| LearningSession.Session.ApplyFromCurrent | src/learning/adapter-session-learning-provider.ts:476-484 | Accepts only the exact readback of the intended state. |
| LearningSession.Session.PutBaselineBack | src/learning/adapter-session-learning-provider.ts:563-570 | Accepts only the exact readback of the baseline. |
| LearningRun.Workflow.RunPhases | src/learning/workflow.ts:381-408 | Succeeds if and only if capture, test, replay and restore each read exactly what they expect and the lineage still held at the end; at most four writes; no evidence means none. |
| LearningRun.Workflow.EndFailed | src/learning/workflow.ts:402-415 | A failed run with nothing captured, or with a restore that was proved, ends its claim FAILED and reports nothing changed; with a restore that was not proved it ends AMBIGUOUS and reports a change; a final entry that did not take effect leaves it open. A restore is given up unread only if it was used up or its check or read failed. |
| LearningRun.Workflow.LearnWith | src/learning/workflow.ts:376-460 | A claim ends AMBIGUOUS if and only if the baseline was captured, the run failed, its last restore was not proved and the final entry took effect, and a change is reported exactly on the first three; a run that fails with nothing captured or with a proved restore ends FAILED when its entry took effect; a run goes on to its registration only when all four phases went through. |
| LearningRun.Workflow.Register | src/learning/workflow.ts:439-456 | Which answers leave a recipe in the registry and which complete the claim: a recipe stays under an uncompleted claim exactly when it was written and the registry's report, the second lineage check or the completion failed. |
| LearningRun.RecipeOutlivesClaim | src/learning/workflow.ts:440-446 | Answers that reach it: the second lineage check fails, so the recipe is registered and the claim ends FAILED. |
| LearningRun.Workflow.Learn | src/learning/workflow.ts:302-468 | Whatever the target, other editors and the journal do: at most four writes, each guarded by the read before it; at most one final entry; exactly when the claim ends AMBIGUOUS, FAILED or COMPLETED and what is reported, a known key included; an obedient undisturbed target is registered after exactly four writes with its content unchanged. |
| TaskScope.CoversIsPartialOrder | src/core/task-authority.ts:171-179 | Scope coverage is reflexive, transitive and antisymmetric. |
| TaskScope.AncestorsAreChained | src/core/task-authority.ts:171-183 | Two scopes above one target cover one another. |
| TaskScope.OverlapIsSharedTarget | src/core/task-authority.ts:181-183 | Two scopes overlap if and only if some target lies in both. |
| TaskScope.ApartExactly | src/core/task-authority.ts:275-286 | Observe and write scopes pass the disjointness check if and only if no target is both readable-only and writable. |
| TaskScope.WritableIsNeverObserved | src/core/task-authority.ts:275-286 | In a valid grant nothing writable is above, below or inside an observe scope. |
| TaskScope.PublishedIsWritable | src/core/task-authority.ts:320-339 | Whatever may be published is writable and readable. |
| TaskAuthority.AcceptMoves | src/core/task-authority-manager.ts:282-420 | A lineage transition succeeds exactly when nothing is pinned and all checks pass; it moves only the digest, one project's pages and the pending receipt, revokes every earlier guard and keeps the scope; refused, it changes nothing but an expired authority. |
| TaskAuthority.ExactChangeMeans | src/core/task-authority-manager.ts:357-373 | The length and membership tests admit exactly one added, or one removed, page. |
| TaskAuthority.CloneThenCleanupRestores | src/core/task-authority-manager.ts:374-419 | A clone followed by its cleanup gives back the same pages, digest and grant. |
| TaskAuthority.PinnedRefuses | src/core/task-authority-manager.ts:560-589 | While a dispatch or execution lease is held mint, replace, clear, rebinding and expiry change nothing. |
| TaskAuthority.FailedChangesNothing | src/core/task-authority-manager.ts:168-192 | A failed mint or replace leaves the active grant, apart from dropping an expired one. |
| TaskAuthority.LineageBusyExactly | src/core/task-authority-manager.ts:569-580 | Mint, replace and clear are refused on behalf of the lineage if and only if a clone or cleanup is under way or a clone is pending, whatever the clock says, and then nothing moves. |
| TaskAuthority.ExpiredStandsAsideExactly | src/core/task-authority-manager.ts:168-192 | Looking at an expired, unpinned authority drops it and its lineage; mint and replace act as if it were dropped, and clear succeeds, if and only if no lineage is held. |
| AuthorityExpiry.GrantCallsNeverRecover | src/core/task-authority-manager.ts:569-580 | However many mint, replace and clear calls follow one another, a held lineage does not move. |
| AuthorityExpiry.LookRecovers | src/core/task-authority-manager.ts:194-210 | One look at the expired authority after them ends it: none of the three is refused on behalf of the lineage any more. |
| AuthorityExpiry.ExpiredCloneBlocksMint | src/core/task-authority-manager.ts:168-192 | A run that reaches it: a minted authority clones a page and expires; mint, replace and clear are all refused although no authority is current and a mint after a look succeeds. |
| AuthorityAnswers.BuildsExactly | src/core/task-authority-manager.ts:449-484 | A grant is built if and only if description, lifetime, clock, inventory and scopes are all good; otherwise the first of them that is not names the error. |
| AuthorityAnswers.MintSucceedsExactly | src/core/task-authority-manager.ts:168-181 | Mint succeeds if and only if no lineage and no lease is held, no unexpired authority is active and the input builds; then a never-used token is the only one unrevoked; over a live authority it is refused as already active and nothing moves. |
| AuthorityAnswers.ReplaceSucceedsExactly | src/core/task-authority-manager.ts:184-192 | Replace succeeds if and only if no lineage and no lease is held and the input builds; a refused one leaves a live grant. |
| AuthorityAnswers.ClearSucceedsExactly | src/core/task-authority-manager.ts:422-429 | Clear succeeds if and only if nothing is held, says whether there was an authority, and revokes every guard. |
| AuthorityAnswers.MintNeverTouchesALiveGrant | src/core/task-authority-manager.ts:168-181 | Over every run a mint never touches an unexpired authority and never revokes its guard. |
| AuthorityAnswers.DeadGuardsAreNamed | src/core/task-authority-manager.ts:486-558 | A guard that is not live is refused as revoked or expired, and a second lease as busy, with no change. |
| AuthorityAnswers.ExecutionGranted | src/core/task-authority-manager.ts:532-558 | An execution lease is granted if and only if the guard is live at both readings and no execution runs; nothing else moves. |
| AuthorityAnswers.LeasesAreGivenBackByTheirHolder | src/core/task-authority-manager.ts:509-558 | Each of the three leases is given back by its holder only, and nothing else moves. |
| AuthorityAnswers.LineageGranted | src/core/task-authority-manager.ts:210-280 | The lineage lease is granted if and only if none is held and the live grant allows clone and cleanup, expects this receipt and knows and covers the project. |
| AuthorityAnswers.ExactChangeIsOnePage | src/core/task-authority-manager.ts:357-373 | The length and membership tests say, in both directions, that the set of pages gained or lost one page other than the source. |
| AuthorityAnswers.RebindingSucceedsExactly | src/core/task-authority-manager.ts:282-420 | A rebinding succeeds if and only if nothing is pinned and the transition, stated over page sets, is the holder's own change of one page. |
| AuthorityAnswers.MutationIsSentExactly | src/control/browser-authority.ts:2057-2094 | A browser lease sends if and only if it is fresh at both readings, unspent and granted the dispatch lease; otherwise no lease and no slot moves. |
| AuthorityAnswers.ProcessSlotExactly | src/control/browser-authority.ts:1229-1259 | The process slot is taken exactly by a live minted guard when free, and given back on closing, which is refused during an operation. |
| AuthorityAnswers.CloneStartsExactly | src/core/task-authority-reference.ts:29-36 | A clone starts if and only if the lineage is open and nobody holds it, and remembers task and scope. |
| AuthorityAnswers.DeleteIsSentExactly | src/core/task-authority-reference.ts:63-84 | A delete is sent if and only if its receipt is unspent, of the same task and scope, and the open lineage waits for it; then receipt and token are spent. |
| AuthorityAnswers.CloneEvidenceExactly | src/adapters/reference-page-lifecycle.ts:77-110 | Clone evidence is accepted if and only if it shows exactly one new unpublished page beside the source with as many new records, all of them unlike the source's. |
| AuthorityAnswers.CloneEndsExactly | src/core/task-authority-reference.ts:36-61 | Good evidence leaves one receipt with its token; lineage is recorded exactly when the authority accepts it; the lease is given back on every path. |
| AuthorityAnswers.CleanupEndsExactly | src/core/task-authority-reference.ts:84-104 | The smaller listing is offered exactly when the page is shown to be gone; the lease is given back on every path. |
| TaskAuthority.DispatchGranted | src/core/task-authority-manager.ts:509-530 | A dispatch lease is granted exactly to the live guard of the active grant when no other mutation runs. |
| AuthorityRuns.VerifiedCloneIsExact | src/adapters/reference-page-lifecycle.ts:77-110 | Clone evidence that the page controller accepts always passes the manager's exact-change test. |
| AuthorityRuns.ReachableInv | src/core/task-authority-manager.ts:154-599 | Over every interleaving only the newest guard can be unrevoked, sending leases hold the dispatch lease under it, slots are spent once, receipts are spent once. |
| AuthorityGuarantees.MutationsArePinned | src/control/browser-authority.ts:2070-2085 | While a browser lease sends, its guard is that of the active grant, every other guard ever issued is revoked, and no other lease sends. |
| AuthorityGuarantees.MutationsRunInsideOneGrant | src/control/browser-authority.ts:2070-2085 | Over any run that does not end the mutation, grant, token and dispatch lease stay what they were when it was sent. |
| AuthorityGuarantees.OneMutationPerLease | src/control/browser-authority.ts:2057-2094 | Each browser lease sends at most one mutation. |
| AuthorityGuarantees.DeletesAreReceiptBound | src/adapters/reference-page-lifecycle.ts:123-147 | Over every run each receipt leads to at most one delete, and that is sent with the opaque token that came with the verified evidence for the clone the receipt names. |
| AuthorityGuarantees.RevocationIsPermanent | src/core/task-authority-manager.ts:486-493 | A revoked guard stays revoked for good. |
| AuthorityGuarantees.PendingCloneHoldsTheGrant | src/core/task-authority-manager.ts:569-580 | Over any run the grant of a pending clone stays as it is up to the event that finds it expired or verifies that very clone gone, and the latter keeps task, scope and expiry. |
| AuthorityGuarantees.LineageRoundTrip | src/core/task-authority-reference.ts:29-104 | From an accepted clone to its accepted cleanup, whatever is interleaved, inventory and whole grant come back. |
| TaskAuthorityManager.Manager.Mint | src/core/task-authority-manager.ts:168-181 | The manager object mints as specified; MintSucceedsExactly says when that succeeds and what it refuses. |
| TaskAuthorityManager.Manager.Replace | src/core/task-authority-manager.ts:184-192 | It replaces as specified. |
| TaskAuthorityManager.Manager.Clear | src/core/task-authority-manager.ts:422-429 | It clears as specified. |
| TaskAuthorityManager.Manager.Current | src/core/task-authority-manager.ts:435-447 | It drops an expired authority exactly when no lease pins it. |
| TaskAuthorityManager.Manager.BeginMutationDispatch | src/core/task-authority-manager.ts:509-530 | Takes the dispatch lease with the guard checked before and after. |
| TaskAuthorityManager.Manager.BeginTaskExecution | src/core/task-authority-manager.ts:532-558 | Takes the execution lease likewise. |
| TaskAuthorityManager.Manager.BeginReferenceInventoryMutation | src/core/task-authority-manager.ts:210-280 | Starts one lineage mutation at a time. |
| TaskAuthorityManager.Manager.AcceptVerifiedReferenceInventoryTransition | src/core/task-authority-manager.ts:282-420 | Rebinds the inventory digest as specified. |
| TaskAuthorityManager.BrowserAuthorityLease.DispatchMutation | src/control/browser-authority.ts:2057-2094 | Sends exactly when fresh twice, unspent and granted the dispatch lease; the slot is spent once in the life of the lease. |
| TaskAuthorityManager.BrowserAuthorityLease.BeginAdapterOperation | src/control/browser-authority.ts:2121-2136 | One adapter operation at a time, only on a fresh lease. |
| TaskAuthorityManager.BrowserAuthorityLease.EndAdapterOperation | src/control/browser-authority.ts:2132-2136 | However the operation ends, the lease is free for the next one. |
| TaskAuthorityManager.BrowserAuthorityLease.Close | src/control/browser-authority.ts:1229-1259 | Refuses to close during an operation and gives the process slot back. |
| ReferenceControllers.ReferencePageLifecycleController.FinishCreate | src/adapters/reference-page-lifecycle.ts:70-121 | Issues one new receipt exactly for verified clone evidence. |
| ReferenceControllers.ReferencePageLifecycleController.SendCleanup | src/adapters/reference-page-lifecycle.ts:123-134 | Spends the token before the delete is sent, and refuses a spent one. |
| ReferenceControllers.TaskScopedController.BeginCreate | src/core/task-authority-reference.ts:29-36 | Starts a clone as the interleaving model has it. |
| ReferenceControllers.TaskScopedController.EndCreate | src/core/task-authority-reference.ts:36-61 | Ends a clone as the interleaving model has it, giving the lease back on every path. |
| ReferenceControllers.TaskScopedController.BeginCleanup | src/core/task-authority-reference.ts:63-84 | Spends lineage and token before the delete. |
| ReferenceControllers.TaskScopedController.EndCleanup | src/core/task-authority-reference.ts:84-104 | Ends a cleanup as the interleaving model has it. |
| LiteralEdits.ExactMatches | src/adapters/t123-code-helper.ts:230-249 | Finds the greedy leftmost matches, each search starting after the last match. |
| LiteralEdits.MatchesAreOrdered | src/adapters/t123-code-helper.ts:230-249 | The found offsets are matches, in order and disjoint. |
| LiteralEdits.MatchesAreComplete | src/adapters/t123-code-helper.ts:230-249 | No match is skipped: each one overlaps an offset that was taken. |
| LiteralEdits.LiteralSpans | src/adapters/t123-code-helper.ts:251-304 | Succeeds exactly when every rule is fine, needles differ and all spans are pairwise apart; then lists exactly the rules' spans in order; otherwise the first faulty rule, or the overlap, names the error. |
| LiteralEdits.NeighboursSuffice | src/adapters/t123-code-helper.ts:288-302 | Comparing neighbours of the sorted list is enough to keep every pair apart. |
| LiteralEdits.RuleOrderIrrelevant | src/adapters/t123-code-helper.ts:251-304 | Any permutation of the rules succeeds together with the same spans. |
| LiteralEdits.ApplySpans | src/adapters/t123-code-helper.ts:306-316 | Splices in order. |
| LiteralEdits.SpliceMeaning | src/adapters/t123-code-helper.ts:306-316 | Splicing agrees with the order-free meaning: replace where a span starts, copy elsewhere. |
| LiteralEdits.BulkEditMeaning | src/adapters/t123-code-helper.ts:509-516 | A bulk edit writes each rule's replacement at its greedy matches and nowhere else. |
| LiteralEdits.SingleRuleIsReplaceAll | src/adapters/t123-code-helper.ts:494-507 | One rule refines recursive replace-all. |
| LiteralEdits.SpliceLength | src/adapters/t123-code-helper.ts:306-316 | Output length is input length plus replacements less removed text. |
| LiteralEdits.UndoRestores | src/adapters/t123-code-helper.ts:475-480 | The returned spans, shifted, and the removed slices rebuild the original exactly. |
| TagStructure.FindTagEnd | src/adapters/t123-code-helper.ts:125-138 | Finds the first closing bracket outside quotation marks. |
| TagStructure.TrackedTagIssues | src/adapters/t123-code-helper.ts:140-188 | The scanner reports exactly what the token stream of the reference scanner yields. |
| TagStructure.SilentIffBalanced | src/adapters/t123-code-helper.ts:140-188 | No issue if and only if every declaration is terminated and the opens and closes are balanced. |
| TagStructure.UnbalancedCount | src/adapters/t123-code-helper.ts:140-188 | The unbalanced issues number the closes met at depth zero plus the final depth. |
| TagStructure.DeclarationsConserved | src/adapters/t123-code-helper.ts:140-188 | What is left open is what was opened less the closes that matched. |
| TagStructure.NearestCandidate | src/adapters/t123-code-helper.ts:146-160 | The nearer of the two searches skips no declaration. |
| CodeEditPlan.ScanComments | src/adapters/t123-code-helper.ts:190-218 | The comment scan agrees with a position-by-position reference. |
| CodeEditPlan.InspectStructure | src/adapters/t123-code-helper.ts:190-218 | No issue exactly on text with no NUL, paired comments, and terminated balanced scripts and styles; and how often each issue is reported. |
| CodeEditPlan.PlanBulkLiteralReplacements | src/adapters/t123-code-helper.ts:456-516 | Accepts exactly the edits that are accepted by every check, and otherwise gives the error of the first one that fails; the planned code is the requested one and can be undone. |
| EntityDecoding.ReplaceExtendsPass | src/control/adapter-session-factory.ts:230-237 | One more global replacement enables one more entity of a single pass. |
| EntityDecoding.DecodeIsOnePass | src/control/adapter-session-factory.ts:230-237 | The five replacements, the ampersand last, are one left-to-right pass over the original. |
| EntityDecoding.DecodeInvertsEscape | src/control/adapter-session-factory.ts:230-237 | Decoding undoes a per-character escape for every text. |
| ZeroPlan.NextElementId | src/adapters/zero.ts:160-167 | The first of a hundred clock readings, each read anew and with its attempt added, that is no id yet; none exactly when all are taken. |
| ZeroPlanned.PatchSetsOneField | src/adapters/zero.ts:199-235 | A planned patch sets the requested field of the requested element to the requested value; every other field, element and the metadata stay. |
| ZeroPlanned.CloneIsMovedCopy | src/adapters/zero.ts:236-257 | A planned clone is one more element at the key after the last, under the next free id: its left stands for the source's left plus the left offset, its top for the source's top plus the top offset, text staying text that reads back as that number; it lies on the top layer plus one; every other field and every other element stay. |
| ZeroPlanned.PlanIsRefusedExactly | src/adapters/zero.ts:170-258 | Each refusal of the planner holds exactly when its cause does and nothing before it; everything else is planned. |
| ZeroPlanned.AcceptedAdditionMeans | src/control/browser-authority.ts:951-992 | Every accepted addition is one placed copy of the one element like it, at the key after the last, under a new id, authorized for that element; only the timestamp may differ. |
| ZeroPlanned.AcceptedRemovalMeans | src/control/browser-authority.ts:993-1022 | Every accepted removal takes away the last element, a copy of the one element like it that stays. |
| ZeroClones.CloneFacts | src/adapters/zero.ts:236-257 | A clone at given coordinates keeps type and fields outside id, place and layer, has finite geometry and lies on the top layer plus one; CloneIsMovedCopy says which coordinates the planner gives it. |
| ZeroAgreement.PlannedPatchIsAccepted | src/adapters/zero.ts:199-235 | Every planned patch that changes the model is accepted for its element under exactly one operation: the requested one, except for a text link or a shape breakpoint patched as a property. |
| ZeroAgreement.AcceptedPatchChangesOneField | src/control/browser-authority.ts:888-950 | An accepted write with the same keys changes one field of one element; ids and metadata but the timestamp stay. |
| ZeroAgreement.RestoreAcceptedExactly | src/control/browser-authority.ts:916-944 | The restore is accepted always for a property, for a link exactly if it was a string or absent, for a breakpoint exactly if it was a number. |
| ZeroClones.CloneAcceptedExactly | src/control/browser-authority.ts:951-992 | The planner's clone is accepted if and only if its source has no twin, and then as a clone of that source. |
| ZeroClones.AdditionIsUndone | src/control/browser-authority.ts:993-1022 | Every accepted addition is undone by an accepted removal, same operation and element. |
| ZeroClones.RemovalUndoneExactly | src/control/browser-authority.ts:966-992 | An accepted removal can be undone if and only if no key lies between the removed element and the rest. |
| ZeroValidator.AssertSupportedZeroTransition | src/control/browser-authority.ts:829-1032 | The verdict, computed key by key: an authorization exactly when the write is one supported transition. |
| ZeroValidator.PatchVerdict | src/control/browser-authority.ts:888-950 | The verdict on writes that keep the keys. |
| ZeroValidator.OneMoreVerdict | src/control/browser-authority.ts:963-1022 | The clone rule shared by additions and removals. |
| ZeroWitnesses.NumericLinkIsLost | src/control/browser-authority.ts:916-944 | A text element whose link is a number: the link patch is accepted, and no write after it restores the old link. |
| ZeroWitnesses.TextBreakpointIsLost | src/control/browser-authority.ts:916-944 | A shape whose left-res-480 is text: the same for the breakpoint patch. |
| ZeroWitnesses.LinkPropertyIsReclassified | src/control/browser-authority.ts:916-944 | A property patch of a text link is accepted, but not as a property patch. |
| ZeroWitnesses.ShapeCloneIsReclassified | src/control/browser-authority.ts:979-992 | A generic clone of a shape is accepted as a shape clone and not as an element clone. |
| ZeroWitnesses.TwinCloneIsRefused | src/control/browser-authority.ts:951-992 | Two boxes that differ only in their id: the planner clones one, and no operation accepts the clone. |
| ZeroWitnesses.GapCannotBeRefilled | src/control/browser-authority.ts:966-1022 | From keys 0 and 2 the removal of 2 is accepted, and no write that puts it back is. |
| Decimal.CompareIsNumeric | src/research/config.ts:82-86 | The id comparison is numeric order at any length. |
| Decimal.ShowValue | src/adapters/zero.ts:160-167 | A printed number reads back as itself. |
| CanonicalInventory.SortIsCanonical | src/research/config.ts:286-311 | Sorting distinct ids gives the one strictly ascending listing. |
| CanonicalInventory.FormExistsExactly | src/research/config.ts:279-332 | An inventory has a canonical form exactly when, in whatever order, it is acceptable. |
| CanonicalInventory.FormsAgreeExactly | src/research/config.ts:279-343 | Two accepted inventories have equal forms if and only if account, projects and per-project page sets agree. |
| CanonicalInventory.PageOwnershipIsAFunction | src/research/config.ts:312-323 | In an accepted inventory every page has one owner. |
| InventoryBinding.ClaimPages | src/research/config.ts:312-323 | Gives a project's pages to it exactly when none has an owner yet. |
| InventoryBinding.OwnersUnique | src/research/config.ts:312-323 | The owner map finds a clash exactly when two projects share a page. |
| InventoryBinding.CanonicalLiveInventory | src/research/config.ts:279-338 | The loops compute the canonical form, or its error. |
| InventoryBinding.CollectProjects | src/research/inventory.ts:271-308 | The loop over projects succeeds exactly when each is complete and no page is shared; otherwise it names what is wrong with the first project that stops it. |
| InventoryBinding.DeriveInventory | src/research/inventory.ts:242-327 | A probe is bound exactly when complete, in whatever order; the result reports it faithfully, in ascending order, and always has a canonical form; otherwise what is missing is named in the order in which it is asked. |
| Publication.ReadAfterDispatch | src/core/publication.ts:112-148 | Stops at the first reread that is not unchanged, or at the last; at most one reread more than there are delays. |
| Publication.StepKeeps | src/core/store.ts:771-803 | Safe steps keep: one write per key, never before its claim, one outcome per journal. |
| PublicationRuns.ExecuteSafe | src/core/publication.ts:150-253 | Every step of a publication call is safe when taken. |
| PublicationRuns.WritesExactly | src/core/publication.ts:150-205 | A call writes if and only if its key is new and free and the page is not in the wanted state. |
| PublicationRuns.SuccessWasSeen | src/core/publication.ts:217-233 | SUCCEEDED is journaled only on sight of the wanted flag with an unchanged editor digest. |
| PublicationAnswers.RefusalsAndDryRuns | src/core/publication.ts:150-181 | What a dry run, a missing key, an unreadable page, a torn journal and a key that means something else are answered, without effect. |
| PublicationAnswers.SettledKeysAnswer | src/core/publication.ts:255-329 | A key whose outcome is on record: recovery required after FAILED or AMBIGUOUS, the same success again while the page shows it, drift otherwise. |
| PublicationAnswers.OutcomeTellsTheTruth | src/core/publication.ts:182-329 | Whatever outcome a call journals is what it saw last: SUCCEEDED or NOOP on the wanted flag with the digest of the claim, FAILED on an untouched page, AMBIGUOUS otherwise, each with its code, and the answer says the same. |
| PublicationAnswers.SuccessIsOnRecord | src/core/publication.ts:206-329 | A non-dry success reports a sight of the wanted flag with the digest of the claim, is marked as a change exactly when this call wrote, and the last record of its key is SUCCEEDED or NOOP. |
| PublicationAnswers.FailureIsReported | src/core/publication.ts:228-252 | A call that records FAILED or AMBIGUOUS always answers with an error. |
| PublicationAnswers.OpenClaimsAreSettled | src/core/publication.ts:255-329 | With a clock that does not go back a call under a claimed key without outcome journals exactly one, whatever it sees. |
| PublicationRuns.ClaimedCallsFinish | src/core/publication.ts:182-252 | With a clock that does not go back a call that claimed its key always journals an outcome. |
| PublicationRuns.ReachableInv | src/core/store.ts:499-517 | The invariant holds after every run, with crashes and keys bound elsewhere. |
| PublicationRuns.AtMostOneWritePerKey | src/core/store.ts:716-769 | Over every run each key is published or unpublished at most once, under its claim. |
| PublicationRuns.AtMostOneOutcome | src/core/store.ts:870-902 | A journal is a claim and at most one terminal event of the same intent. |
| PublicationController.Controller.Execute | src/core/publication.ts:150-253 | The controller object performs exactly the specified steps; SuccessIsOnRecord and OutcomeTellsTheTruth say what they answer. |
| PublicationController.Controller.ReconcileReplay | src/core/publication.ts:255-329 | A claimed key is classified and never written again. |
| PageLifecycle.OneTransactionPerKey | src/adapters/page-lifecycle.ts:166-229 | Over every interleaving each key reaches the transport at most once. |
| PageLifecycle.OneTransactionPerPage | src/adapters/page-lifecycle.ts:203-216 | Each source page has at most one transaction in flight. |
| PageLifecycle.FailedKeysStayBlocked | src/adapters/page-lifecycle.ts:219-221 | Over any run a key that failed stays blocked on the same page, and is never sent or replayed again. |
| PageLifecycle.ReplaysAreVerified | src/adapters/page-lifecycle.ts:181-185 | Only a verified restoration is ever replayed. |
| PageLifecycle.KnownKeysAnswer | src/adapters/page-lifecycle.ts:181-202 | Over every run a known key on another page is a mismatch, and on its own page is replayed, joined or blocked exactly as it was completed, in flight or failed. |
| PageLifecycle.NewKeysStart | src/adapters/page-lifecycle.ts:203-216 | Over every run a new key starts its one transaction exactly when its page is free; a dry run does nothing. |
| PageLifecycle.SettlesExactly | src/adapters/page-lifecycle.ts:216-228 | A transaction that ends is completed exactly on a verified report and blocked otherwise, and its page is free again. |
| PageLifecycle.PageLifecycleController.Begin | src/adapters/page-lifecycle.ts:166-216 | The synchronous part of a call, as specified. |
| PageLifecycle.PageLifecycleController.Finish | src/adapters/page-lifecycle.ts:216-228 | The settlement of a transaction, as specified. |

## Left out

- Sockets, DOM probes, the MCP server, request schemas, file paths, permissions, symlinks and fsync: only their results matter here.
- Adapter lookup, adapter state hashes that are not canonical, and records of a shape the program itself never writes: one-branch input checks.
- Standard, page-settings and HEAD adapters, the recipe registry, the audit provider, the observatory and the public page verifier: single-branch members.
- ChangeSetRuns.FailKeeps: a plan whose key file was linked but then reported as failed, because its temporary file could not be removed, leaves a key that names no ChangeSet; that outcome is not modelled.
- ChangeSetEngine.Engine: storage that fails in mid-call is an event of the runs, not of the object.
- ChangeSetEngine.Engine.Apply: reads the clock once per call, where the program reads it once per record it builds.
- LearningJournal.RunKeepsInv: failure codes and the syntax of the other entry fields, which the program itself always writes in the form it later demands, are not part of the entries; a claim whose final entry failed is treated as given up, because the workflow never finishes a claim twice (`LearningRun.Workflow.Learn`).
- LearningRun.Workflow.Learn: the choice of the edited field and the marker derived from the baseline hash are arbitrary functions of the captured state; evidence and lineage checks only succeed or fail, and so does a registry write, with or without taking effect; non-dry request validation is not modelled.
- LearningSession.Remote.Write: a write is decided by the time its call returns; a write that lands later is not modelled.
- TaskAuthority.AcceptMoves: receipts and targets are well-typed values, so the checks for frozen objects and canonical id text are not modelled.
- AuthorityGuarantees.MutationsArePinned: holds for browser leases with a guard minted by the manager; leases without a guard are not modelled.
- CodeEditPlan.InspectStructure: the order in which issues are listed is not modelled.
- CodeEditPlan.PlanBulkLiteralReplacements: the extraction of external dependencies is one yes-or-no input, and the digests in the plan are not modelled.
- ZeroClones.CloneAcceptedExactly: coordinates are integers printed in full, so fractions and the exponent notation of very large numbers are not modelled; how other values turn into numbers is an arbitrary function.
- ZeroTransition.Accepted: the size and depth limits of the written JSON are not modelled.
- InventoryBinding.DeriveInventory: the origin, sign-in and enumeration-failure guards, and the derivation of the account fingerprint, come before the modelled part.
- Publication.ReadAfterDispatch: the delays between rereads and their eight-second budget are represented by the number of rereads.
- PageLifecycle.PageLifecycleController.Begin: key and target syntax checks are not modelled.
- TildaChangeSetEngine under a task authority, the publication controller under one, and existing-recipe reuse after an authority expired: compositions of the parts above.
