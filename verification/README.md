# A verified model of the crash-safe recovery engine

This project models, in Dafny, the part of the repository that must not go wrong: the event ledger of a recovery run,
the simulated adapter that moves money or stock, the independent verifier, the guarded chain of use cases between
them, and two smaller cores (the JSON limit scanner and the length-prefixed streams). `dafny verify dfyconfig.toml`
checks all of it.

**The ledger** (`Workflow`, `Records`, `Ledger`, `Writers`, `ReplayRules`, `WriterRules`, `Workspace`). An
append-only, hash-chained list of events with one write-once marker per event, pinned source snapshots, checkpoints,
quarantine and a seal. `Ledger.Fold` is the replay that decides what an event list means; `Writers` says what each
writer decides from the files it finds; the class `Workspace.FileRecoveryWorkspace` is the code itself, statement by
statement over its directory, proved to do exactly that. A digest is the injective image of the content it is computed
from. `ReplayRules` and `WriterRules` say the same without the code's functions: which lists replay accepts, and when
each writer commits and what its event says, in terms of the committed events, as conditions both necessary and
sufficient.

**Crashes.** A call has a number of durable writes left (`Journals.Power`) and dies at the one it cannot afford. An
append cut short leaves nothing, one piece without its LF, or the whole line; `ByteJournal` proves that these are the
only shapes a cut at any byte can leave, and that recovery's two ways of finding the boundary cut exactly there.
Markers, receipts, snapshots, checkpoints and quarantine files are written whole or not at all.

**The effects** (`EffectReaders`, `EffectJournals`, `AttemptJournals`, `EffectScripts`, `EffectOutcomes`, `Adapter`,
`Verifier`). Four source journals and the attempt journal, each append followed by its marker, receipts and
quarantine. An `EffectScripts.Plan` is the list of durable steps one adapter call takes from the committed view it
starts with; the class `Adapter.LocalSimulatedActionAdapter` recovers, decides and writes as the code does, and is
proved to follow that plan to its end or to a crash. `EffectOutcomes` reads off the records what that comes to, fault
by fault. The verifier reads the same bytes with its own loop.

**Whole runs** (`GuardedChain`, `SystemRuns`, `Orchestration`, `Recommendation`). `SystemRuns.Next` is one call of a
run: a guarded append, a reservation, a revision, a reopen, tail recovery, the seal, an adapter call with any injected
fault, a stored check or condition, or a check's record. Each clause is the contract of the method that performs it.
Runs interleave these calls in any order with a crash at any durable write of any of them, and start from any prepared
directory. The adapter clause assumes only the shape of the journals and that the view followed the plan;
`EffectScripts.PlanKeepsEffects` derives from it that effects and receipts stay exact. A guarded append carries any
event but a reservation, a verdict or a revision, and enters none of the reserved, verified and failed states; those
have calls of their own, as in the code.

Where the code does less than one might expect, the model follows the code. A general append commits before it
projects, so a revision event type passed to it makes the run unreadable; a source revision trusts the caller's event
type, and neither revisions nor reopens check that a command ID is new. The lemmas `AppendAgreesWithReplay`,
`ReviseAgreesWithReplay` and `ReopenAgreesWithReplay` give the exact conditions. The two effect readers differ behind
a piece ended by a bare CR (`ReadersDifferBehindBareCr`), and the scanner counts an escaped surrogate pair as two
characters where the parser builds one (`PairsAreCountedTwice`); each has its exact agreement condition. A partly
applied reshipment is never completed by the adapter (`HalfwayIsForever`). Recovery refuses when the name of the
quarantine file is taken, so safety is proved always and success under a free name.

## Model

| member | source | states |
|---|---|---|
| `SystemRuns.VerdictsAreTrue` | scripts/recovery_orchestration.py:126-182 | End-to-end safety: in every reachable world a remedy-verified event names the milestone of its operation and is true then and ever after: the payment source shows the exact refund, or the order, inventory and warehouse sources each show the exact reship, and a reservation under that contract precedes it |
| `SystemRuns.ClosedMeansDone` | scripts/recovery_services.py:828-887 | In every reachable world a closed case either took a verified zero-action condition in a segment that reserved nothing, or stands on a true verdict of the same revision segment |
| `SystemRuns.EffectsAreExactlyOnce` | scripts/recovery_adapters.py:274-298 | In every reachable world an action has at most one committed effect per source, in a source of its operation and as its terms call for in every field; one case and business key is served by one action across all four journals; one action stems from one contract |
| `SystemRuns.HalfwayIsForever` | scripts/recovery_adapters.py:404-412 | Once some but not all effects of an action are committed without a receipt, exactly those sources hold them in every later world of any run, and no receipt is ever issued |
| `SystemRuns.ReceiptsVerifyForever` | scripts/recovery_verification.py:127-205 | Once a receipt exists, verification then and in every later world finds the remedy, shown the receipt or not |
| `SystemRuns.ReceiptsAreTrue` | scripts/recovery_adapters.py:413-442 | In every reachable world a receipt is for its own action under a contract reserved for it, and the sources of its operation show the remedy; it stands unchanged over the same remedy in every later world |
| `SystemRuns.SealIsFinal` | scripts/recovery_workspace.py:1353-1367 | Once a world is sealed every later world of the run has the same ledger directory, and the seal names the digest and revision of its last event |
| `SystemRuns.ReservationOpensExecution` | scripts/recovery_adapters.py:228-242 | The event a reservation writes is one the adapter goes by exactly when no earlier event reserved the same action ID |
| `SystemRuns.FailureIsNeverEntered` | scripts/recovery_services.py:619-691 | No reachable ledger contains an event that enters the verification-failed state |
| `SystemRuns.CheckpointsStayValid` | scripts/recovery_workspace.py:1220-1264 | A checkpoint once written is still there and validates against every later readable ledger, tail recovery included |
| `SystemRuns.ReservationsAreUnique` | scripts/recovery_workspace.py:938-1025 | In every reachable ledger reservations have pairwise distinct idempotency keys, business keys and authorities, at most one in the current revision segment |
| `SystemRuns.RunKeeps` | scripts/recovery_workspace.py:777-1326 | Every world of every run satisfies the system invariant, and extends every earlier one: events, effects, receipts, checks and checkpoints are never taken back |
| `SystemRuns.StepKeeps` | scripts/recovery_services.py:532-691 | One call of any kind, cut at any durable write, keeps the system invariant |
| `CrashRecovery.CrashedAppendRecovers` | scripts/recovery_workspace.py:777-908 | Crash atomicity: after a crash at any write of an append, recovery under a free quarantine name finds the state, revision, pins, active and invalidated objects of before the call, or of after the planned event, and nothing else |
| `CrashRecovery.CrashedRevisionRecovers` | scripts/recovery_workspace.py:1042-1112 | The same for a revision or reopen, whose snapshot is written before its event |
| `CrashRecovery.CrashedReserveRecovers` | scripts/recovery_workspace.py:938-1025 | The same for a reservation |
| `CrashRecovery.RecoverySucceeds` | scripts/recovery_workspace.py:1266-1326 | Recovery of an untampered ledger with a committed event, a free quarantine name and power returns a tidy ledger with the committed events' meaning; the tail it cut is in quarantine and one trace event names it |
| `CrashRecovery.RecoveryKeeps` | scripts/recovery_workspace.py:1266-1326 | Recovery cut at any of its own writes keeps the invariant and every committed event, adds at most its own trace event, and cuts nothing that is not in quarantine |
| `CrashRecovery.AppendKeeps` | scripts/recovery_workspace.py:806-908 | An append under every crash keeps the invariant and commits at most the planned event |
| `CrashRecovery.RevisionKeeps` | scripts/recovery_workspace.py:1042-1112 | A planned revision that replays keeps the invariant under every crash, and commits its event exactly when its marker was written |
| `LedgerInvariant.CommitKeeps` | scripts/recovery_workspace.py:891-903 | One durable commit: invariant kept, event committed exactly when the marker was written, success only with all three writes |
| `LedgerInvariant.AppendAgreesWithReplay` | scripts/recovery_workspace.py:806-903 | What an append commits is accepted by replay, and replays to the state the writer computed, exactly when its type is not a revision type |
| `LedgerInvariant.ReviseAgreesWithReplay` | scripts/recovery_workspace.py:1042-1112 | A source revision is accepted by replay exactly when it used its own event type and a fresh command ID, and then retires the sorted active objects |
| `LedgerInvariant.ReopenAgreesWithReplay` | scripts/recovery_workspace.py:1128-1218 | A reopen is accepted by replay exactly when its command ID is fresh |
| `LedgerInvariant.ReadableIffTidy` | scripts/recovery_workspace.py:608-665 | An untampered ledger is readable exactly when nothing lies past its marked events |
| `LedgerInvariant.FoldFrame` | scripts/recovery_workspace.py:667-744 | Snapshots no event points to never change a replay |
| `ReplayRules.ReplayAcceptsExactly` | scripts/recovery_workspace.py:667-744 | The replay loop accepts a list exactly when each event continues its own past: number, head, fresh command, state, revision, pins of the stored snapshot, lawful move, and for a revision everything in force retired by name |
| `WriterRules.ReaderAcceptsExactly` | scripts/recovery_workspace.py:551-665 | Over any directory at all the reader answers exactly when nothing is torn, every record is genuine and the markers are those from 1 to n, each naming its record |
| `WriterRules.AppendCommitsExactly` | scripts/recovery_workspace.py:806-889 | The general writer commits exactly on a writable directory, under a new command prepared against the last event, for a lawful move with links inside the case; and the event says what the command said |
| `WriterRules.ReserveCommitsExactly` | scripts/recovery_workspace.py:945-1025 | A reservation is committed exactly when the authority was granted for this action and this payload, an action is prepared in this case and revision, the contract was built on the last event and nothing earlier claims its key, remedy or authority; and the event names exactly these |
| `WriterRules.ReserveAnswersExactly` | scripts/recovery_workspace.py:965-985 | It answers without writing exactly to the retry of an earlier reservation under the same grant |
| `WriterRules.ReserveWritesExactly` | scripts/recovery_workspace.py:938-1025 | Under every crash a reservation adds its event exactly under that condition and with its marker written, and never succeeds without the grant |
| `WriterRules.ReviseCommitsExactly` | scripts/recovery_workspace.py:1042-1112 | A source revision is planned exactly against the last event, from a state that may be revised, with a new snapshot of the next revision taken there; its event retires everything in force by name |
| `WriterRules.ReopenCommitsExactly` | scripts/recovery_workspace.py:1128-1218 | A reopen is planned exactly on a closed case under the same conditions, and names the closure it preserves |
| `WriterRules.FreezeSealsHead` | scripts/recovery_workspace.py:1353-1367 | A seal is written exactly on a writable run with events, and names the digest and revision of the last of them |
| `WriterRules.CheckpointNamesPrefix` | scripts/recovery_workspace.py:1232-1253 | A checkpoint that passes the resume check is, in every field, the state of the run at its own number |
| `LedgerHistory.HeadBindsLedger` | scripts/recovery_workspace.py:534-539 | Two accepted ledgers of a run with one head digest are the same list |
| `LedgerHistory.MarkersBindLedger` | scripts/recovery_workspace.py:642-665 | A marker set binds one event list: any deletion, insertion, reordering, truncation or edit is refused |
| `LedgerHistory.OneSuccessorPerHead` | scripts/recovery_workspace.py:678-683 | No two events of an accepted ledger extend the same head |
| `LedgerHistory.CommandsAreUnique` | scripts/recovery_workspace.py:684-690 | No two events of an accepted ledger share a command ID |
| `LedgerHistory.ResubmissionNeverAppends` | scripts/recovery_workspace.py:806-816 | From any later ledger a committed command resubmitted unchanged appends nothing, and its ID with changed input is refused as stale |
| `LedgerHistory.CurrentCommandIsNew` | scripts/recovery_workspace.py:751-775 | A command that binds the current head can never be mistaken for a retry |
| `LedgerHistory.ReserveKeepsDistinct` | scripts/recovery_workspace.py:945-1025 | The only writer of reservations never commits one that shares a key, a remedy or an authority with an earlier one |
| `LedgerHistory.ReservationRetryIsNoOp` | scripts/recovery_workspace.py:965-985 | An exact retry of any earlier reservation is a no-op, whatever state the run is in now |
| `LedgerHistory.SealedLedgerNeverMoves` | scripts/recovery_workspace.py:1353-1367 | After the seal no ledger writer, recovery included, changes the directory: all refuse, but for the exact retry of a reservation, which is answered with the state as it is |
| `LedgerHistory.CheckpointStaysValid` | scripts/recovery_workspace.py:1232-1253 | A checkpoint passes the resume check against every extension of its ledger |
| `WorkflowPaths.ClosureIsEarned` | scripts/recovery_state.py:40-107 | Every closure follows context, recommendation, prepared, reserved, pending, verifying and verified in order with a single reservation since the last revision, or a verified zero-action condition on a recommendation with none |
| `WorkflowPaths.AcceptedStateIsEarned` | scripts/recovery_state.py:126-195 | In every accepted ledger each state has behind it, within its own revision segment, its whole part of the chain from context to remedy |
| `WorkflowPaths.PreparationIsEarned` | scripts/recovery_state.py:40-66 | An action is prepared only behind context and recommendation of the same revision segment, and only from a recommendation or an approval |
| `WorkflowPaths.AcceptedMovesAreLawful` | scripts/recovery_state.py:40-195 | Every event of an accepted ledger leaves the state its predecessor entered, by a move of the list of predecessors |
| `Workflow.ReplayTakesLawfulMoves` | scripts/recovery_state.py:40-195 | The table of successors, the direct-condition guard and the revision rules take exactly the moves of that list |
| `WorkflowPaths.OneReservationPerSegment` | scripts/recovery_state.py:126-195 | A segment enters the reserved state at most once, and the reopened state is never reached |
| `WorkflowPaths.ControlStopIsFinal` | scripts/recovery_state.py:154-164 | A control stop is never left, not even by a source revision |
| `RevisionIsolation.ActiveIsLastLink` | scripts/recovery_workspace.py:691-744 | The active objects are exactly the last link per key since the latest revision event |
| `RevisionIsolation.InvalidatedIsRetired` | scripts/recovery_workspace.py:691-727 | The invalidated list is the concatenation of the sorted active sets at each revision, in order |
| `RevisionIsolation.InventoryIsComplete` | scripts/recovery_workspace.py:691-727 | The retired inventory lists every active object in code-point order and nothing else |
| `RevisionIsolation.OrderIsByFirstDifference` | scripts/recovery_workspace.py:691-727 | That order is the one of the first differing character, prefixes first |
| `Workspace.FileRecoveryWorkspace.Prepare` | scripts/recovery_workspace.py:376-457 | A prepared run satisfies the invariant, with the received event committed when its marker was written |
| `Workspace.FileRecoveryWorkspace.ReplayEvents` | scripts/recovery_workspace.py:667-744 | The replay loop computes the fold |
| `Workspace.FileRecoveryWorkspace.AppendTransition` | scripts/recovery_workspace.py:777-908 | The writer does what its plan says under every crash, keeps the invariant, and adds its event exactly under the append condition and with its marker written |
| `Workspace.FileRecoveryWorkspace.ReserveAction` | scripts/recovery_workspace.py:938-1025 | Reservation does what its plan says, keeps the invariant and reservation uniqueness, adds its event exactly under the reservation condition, and succeeds only for an authority granted for the action's payload |
| `Workspace.FileRecoveryWorkspace.ReviseSource` | scripts/recovery_workspace.py:1027-1112 | Revision does what its plan says; with its own type and a fresh ID it keeps the invariant and adds its event exactly under the revision condition |
| `Workspace.FileRecoveryWorkspace.ReopenWithRevision` | scripts/recovery_workspace.py:1114-1218 | Reopen does what its plan says; with a fresh ID it keeps the invariant and adds its event exactly under the reopen condition |
| `Workspace.FileRecoveryWorkspace.RecoverPartialTail` | scripts/recovery_workspace.py:1266-1326 | Tail recovery does what its plan says, keeps every committed event and cuts nothing that is not in quarantine |
| `Workspace.FileRecoveryWorkspace.Resume` | scripts/recovery_workspace.py:1255-1264 | Resume returns the projection only if every checkpoint validates, and on an untampered tidy ledger always |
| `Workspace.FileRecoveryWorkspace.Freeze` | scripts/recovery_workspace.py:1353-1367 | A seal changes nothing else and names the digest and revision of the last committed event |
| `ByteJournal.EveryCutIsAJournal` | scripts/recovery_workspace.py:247-280 | A crash at any byte of an append is seen by the reader as nothing, one torn piece, or the whole record |
| `ByteJournal.TornLedgerIsCutToRecords` | scripts/recovery_workspace.py:1293-1297 | Cutting a torn ledger after its last LF leaves exactly its whole records |
| `ByteJournal.UnmarkedRecordIsCutOff` | scripts/recovery_workspace.py:1273-1292 | Cutting by the lengths of the lines before it removes exactly the whole unmarked record |
| `EffectReaders.ReadEffectJournal` | scripts/recovery_adapters.py:165-226 | The adapter's reader accepts exactly the journals with a bound committed prefix, and returns that prefix and the rest |
| `EffectReaders.ReadCommittedEffects` | scripts/recovery_verification.py:41-102 | The verifier's reader accepts exactly the journals with a bound committed prefix and no foreign piece, and returns the prefix |
| `EffectReaders.ReadersAgree` | scripts/recovery_verification.py:41-102 | Over every piece list and marker map the two readers accept the same committed prefix exactly when nothing but quiet pieces follows the first torn one |
| `EffectReaders.ReadersAgreeOnAppendedJournals` | scripts/recovery_verification.py:56-59 | On journals written by appends, with at most one torn piece at the end, the two readers always agree |
| `ByteJournal.ReadersDifferBehindBareCr` | scripts/recovery_adapters.py:181-184 | The bytes of a bare CR and any line that is no record: split as the code splits them, the adapter accepts them and the verifier refuses |
| `EffectReaders.AcceptedLengthIsUnique` | scripts/recovery_adapters.py:213-226 | No journal and marker set are accepted at two different committed lengths |
| `EffectReaders.AcceptedIsAttested` | scripts/recovery_verification.py:41-102 | Whatever the files hold, what either reader takes as committed is one record per action from this source at its own number, named by a marker with its digest, and every marker belongs to one of them |
| `AttemptJournals.ReadAttemptJournal` | scripts/recovery_adapters.py:73-118 | The attempt reader accepts exactly numbered journals whose markers bind a prefix 1..n |
| `AttemptJournals.AcceptedAttemptsAreMarked` | scripts/recovery_adapters.py:73-118 | Accepted attempts are numbered from one and the markers are numbered alike and name their contents |
| `EffectJournals.JournalReads` | scripts/recovery_adapters.py:165-226 | Both readers accept every journal the adapter can leave, and read its committed records |
| `EffectJournals.EffectIsUniqueAndExact` | scripts/recovery_adapters.py:244-272 | A committed effect is the only one of its action in its source and equals, field by field, what the contract prescribes |
| `EffectJournals.LedgerGrowthKeeps` | scripts/recovery_adapters.py:228-242 | Effects and receipts stay backed by their reservation as the ledger grows |
| `EffectScripts.PlanKeepsEffects` | scripts/recovery_adapters.py:358-442 | Following the plan, to its end or any cut, is what keeps the effects exact: journals of sound shape whose view followed it are again backed by reservations, one action per remedy, every receipt over its full remedy |
| `EffectScripts.AnyCutGrows` | scripts/recovery_adapters.py:358-442 | Whatever the fault and wherever a call dies, each source gained at most the prescribed effect, nothing was lost, and a new receipt stands only over the full remedy |
| `EffectScripts.EffectsNeedCleanStart` | scripts/recovery_adapters.py:386-429 | A call adds an effect only from a reserved, receiptless, untouched and uncontested start, and has by then committed the attempt that makes later calls reconcile |
| `EffectScripts.PartialIsLeftAlone` | scripts/recovery_adapters.py:409-412 | On a partly applied remedy a call changes no effect and no receipt, and fails |
| `EffectScripts.OkMeansStored` | scripts/recovery_adapters.py:386-442 | Whatever way a call succeeds, the receipt it returns is the stored one, under this contract, and the action was reserved |
| `EffectScripts.RetrySucceedsUnlessHalfway` | scripts/recovery_adapters.py:386-442 | After a call from a clean start, cut anywhere or failed by any fault, the next faultless call succeeds exactly when the remedy was not left half applied |
| `EffectScripts.RefundIsNeverHalfway` | scripts/recovery_adapters.py:25-28 | A refund is never half applied, so that retry always succeeds for it |
| `EffectScripts.LostReceiptIsReconciled` | scripts/recovery_adapters.py:413-420 | After a call whose fault lost the receipt behind its effects, the next call, under any fault of its own, plans nothing but to issue the receipt as reconciled and to note it |
| `EffectOutcomes.FaultDecides` | scripts/recovery_adapters.py:386-442 | From a clean start a call that does not die leaves what its fault says: none, the first or all of PAYMENT, or of OMS, INVENTORY and WMS, gained the exact record; the receipt or none; two attempts noted; and the reported error |
| `EffectOutcomes.NothingToDo` | scripts/recovery_adapters.py:386-404 | Without an exact reservation, over a receipt, under a key taken by another contract or beside another action's remedy a call changes nothing, and returns only a receipt of this contract |
| `EffectOutcomes.OnlyTheReceiptIsIssued` | scripts/recovery_adapters.py:413-420 | With the whole remedy in its sources and only the receipt missing a finished call issues just that, as reconciled |
| `EffectOutcomes.HalfIsLeftAlone` | scripts/recovery_adapters.py:409-412 | With a reship in some of its three sources a finished call touches neither source nor receipt and reports the outcome unknown |
| `Adapter.LocalSimulatedActionAdapter.RecoverSuffixes` | scripts/recovery_adapters.py:380-385 | Suffix recovery of all five journals keeps the committed view, cuts nothing that is not in quarantine, and leaves the journals tidy unless power or a free quarantine name is missing |
| `Adapter.LocalSimulatedActionAdapter.CheckReservation` | scripts/recovery_adapters.py:228-242 | Accepts exactly when one event reserves the action ID and carries this contract |
| `Adapter.LocalSimulatedActionAdapter.AppendEffect` | scripts/recovery_adapters.py:274-298 | Commits exactly the next effect, or on a crash leaves the committed view as it was |
| `Adapter.LocalSimulatedActionAdapter.Execute` | scripts/recovery_adapters.py:358-442 | The committed view moves along the plan made from the view before the call, all of it or the part before a crash, and the effect invariant holds either way |
| `Verifier.VerifyAuthoritativePostcondition` | scripts/recovery_verification.py:127-205 | Classifies from exactly what its own reader accepts; on an untampered run it always answers, from exactly the committed effects |
| `Verifier.VerdictIsReadOffSources` | scripts/recovery_verification.py:105-205 | Over any records: a refund is verified exactly when the payment source holds one proving record of it, a reship exactly when the order, inventory and warehouse sources each do; the milestone is the operation's own; the receipt decides nothing |
| `Verifier.RemedyVerifiedExactly` | scripts/recovery_verification.py:105-205 | For the reserved contract the answer is remedy-verified, under the operation's own milestone, exactly when every required source holds the action's effect, receipt or not, and the digests cited are those of the exact effects |
| `Verifier.ReceiptMeansVerified` | scripts/recovery_verification.py:127-205 | A receipt means remedy-verified now and after any growth of ledger and effects |
| `GuardedChain.CheckMadeHolds` | scripts/recovery_orchestration.py:145-182 | A check made behind a binding receipt finds the remedy, names what the operation reached, and is right about the sources and about who reserved the action |
| `GuardedChain.RecordKeeps` | scripts/recovery_services.py:619-691 | Recording a stored check keeps the system invariant under every crash, even when other calls came in between |
| `GuardedChain.CurrentAppendRecords` | scripts/recovery_workspace.py:777-908 | An append against the head just read either fails or adds exactly its own event, moves the state to its target and links its objects |
| `Orchestration.PrepareRun` | scripts/recovery_workspace.py:376-457 | Every prepared directory, cut at any write of its preparation, is the start of a run, and the engine built on it holds the system invariant |
| `Orchestration.GuardedRecoveryOrchestrator.ExecuteActiveAction` | scripts/recovery_orchestration.py:126-143 | The adapter is reached only for the active action, in recovery or behind a committed start event; success means the receipt is stored and is the last event reported |
| `Orchestration.GuardedRecoveryOrchestrator.RecordActionExecution` | scripts/recovery_services.py:532-617 | The same for the action it is given, whatever the adapter's outcome |
| `Orchestration.GuardedRecoveryOrchestrator.VerifyActiveAction` | scripts/recovery_orchestration.py:145-182 | Success stores a check of the active action, which one event reported a receipt for, and ends the ledger with its verdict: milestone, sources and reservation are those of the contract |
| `Orchestration.GuardedRecoveryOrchestrator.VerifyDirectNoAction` | scripts/recovery_orchestration.py:184-243 | Success means the facts themselves call for a wait or for nothing new, the one recommendation on record decided so, the three sources it rests on are cited in full, and the ledger ends with the condition |
| `Orchestration.GuardedRecoveryOrchestrator.CommunicateActiveVerification` | scripts/recovery_orchestration.py:266-300 | Success records one unsent message that repeats the active verification and states one fact: a refund or a replacement only for a contract of that operation whose remedy the sources show, an estimate only with its date, or that nothing new is called for |
| `Orchestration.GuardedRecoveryOrchestrator.RecordVerification` | scripts/recovery_services.py:619-691 | Records only a check of the active action in the verifying state, and success ends the ledger with its verdict, true of the sources |
| `Orchestration.GuardedRecoveryOrchestrator.RecordNoActionVerification` | scripts/recovery_services.py:693-749 | Success ends the ledger with a cited zero-action condition on an active recommendation, with no action active |
| `Orchestration.GuardedRecoveryOrchestrator.RecordCommunication` | scripts/recovery_services.py:751-826 | Success ends the ledger with an unsent message that repeats the active verification's classification and milestone and cites it |
| `Orchestration.GuardedRecoveryOrchestrator.Close` | scripts/recovery_orchestration.py:302-345 | Every closure it commits cites the active verification and the message derived from it |
| `Orchestration.ClosureCitesThisRevision` | scripts/recovery_services.py:836-887 | The verification and message a closure cites were linked by earlier events of the same source revision |
| `Orchestration.GuardedRecoveryOrchestrator.ReserveExactAction` | scripts/recovery_actions.py:255-295 | Refuses invalid contracts; an authority is consumed, or a retry answered, only if it was granted for the digest of exactly this amount, quantity, currency, target, remedy, case and revision |
| `Recommendation.ProviderCannotSteer` | scripts/recovery_services.py:342-442 | Two completed recommendations from one ledger and facts, under any two provider results, commit events that carry the same decision and differ in the provider alone, and end in the same state with the same objects |
| `Recommendation.RecommendDecides` | scripts/recovery_services.py:342-442 | Every event a completed recommendation commits carries policy's decision on the facts, the case ends in the state of that decision's route, the proposal is kept beside it, and exactly a proposal that agrees in full is accepted |
| `Recommendation.RiskyCaseIsStopped` | scripts/recovery_services.py:400-425 | A completed and routed recommendation on a charged-back or risk-flagged case leaves it control-stopped |
| `Recommendation.RecommendIsGuardedAppends` | scripts/recovery_services.py:342-442 | A recommendation, complete or cut anywhere, is at most two guarded appends of a run |
| `Recommendation.RecoveryApplicationService.Recommend` | scripts/recovery_services.py:342-442 | The use case performs that call |
| `Policy.ConsequentialExactlyWhenCleared` | scripts/recovery_policy.py:184-340 | A money-moving decision is reached exactly when every stop is passed with fresh sources and stock, and its route is fixed by what is at stake |
| `Policy.RiskStopsFirst` | scripts/recovery_policy.py:193-202 | Under the frozen policy a chargeback or any risk flag is exactly what leads to a control stop for a specialist |
| `Policy.NoNewActionExactly` | scripts/recovery_policy.py:203-248 | No new action is decided exactly for a covering remedy, a duplicate signal or no eligible quantity, in this rank, each with its own fact |
| `Policy.RecoverActionExactly` | scripts/recovery_policy.py:212-220 | Reconciliation is decided exactly for an unresolved action past risk stops and covering remedies |
| `Policy.EvidenceBlocksExactly` | scripts/recovery_policy.py:221-308 | Evidence blocks exactly on a conflict, a stale source of the choice, no reliable estimate or too little stock |
| `Policy.AwaitChoiceExactly` | scripts/recovery_policy.py:241-250 | The customer is asked exactly when nothing stands in the way and no choice is on file |
| `Policy.WaitExactly` | scripts/recovery_policy.py:271-291 | A wait is decided exactly on the chosen wait, its three fresh sources and a reliable estimate |
| `Policy.RefusesExactly` | scripts/recovery_policy.py:184-340 | Policy refuses to decide exactly on another version, an unknown choice or insane numbers where they matter |
| `Policy.MissingAreNamed` | scripts/recovery_policy.py:176-181 | A decision names as missing exactly the sources its choice needs and lacks |
| `Policy.CompletionClaimsAreRefused` | scripts/recovery_policy.py:343-360 | A proposal that claims completion or names an unknown fact is refused whatever else it says |
| `Actions.Build` | scripts/recovery_actions.py:80-196 | Succeeds exactly on canonical terms, and fills in digests that validate |
| `JsonLimits.ScannerDecidesLimits` | scripts/recovery_recommender.py:190-262 | For every value printed compactly with allowed characters the one-pass scanner accepts exactly when the bytes are in bound and the recursive check of nesting, sizes and lengths passes |
| `JsonLimits.ScannerAgainstBuiltValue` | scripts/recovery_recommender.py:282-298 | The scanner and the check on the built value agree, nesting aside, exactly when no string is over the limit as spelled but within it as parsed |
| `JsonLimits.PairsAreCountedTwice` | scripts/recovery_recommender.py:214-232 | For every string limit a text of escaped surrogate pairs, within the limit as parsed, that the scanner refuses |
| `JsonLimits.PairsMergeExactly` | scripts/recovery_recommender.py:282-298 | Two escapes are one character to the parser exactly when they spell a high and then a low surrogate |
| `JsonLimits.TextsAreVettedExactly` | scripts/recovery_recommender.py:190-232 | A string of any characters in any spelling passes exactly when it is in bounds and every character, raw or escaped, is neither a control nor one of the twelve reordering characters |
| `Scanner.ScanText` | scripts/recovery_recommender.py:204-262 | The loop over index, stack and counter computes the step-by-step scan |
| `Scanner.PreflightJsonText` | scripts/recovery_recommender.py:190-262 | Byte bound, bidirectional controls and the scan, together |
| `Framing.FramedBundleParses` | scripts/run_stage2_isolated.py:701-744 | Parsing a framed bundle returns every allow-listed UTF-8 file map within bounds, newlines in contents included |
| `Framing.BundlesArePrefixFree` | scripts/run_stage2_isolated.py:713-744 | Of two accepted streams neither strictly begins the other |
| `Framing.BundlesParseExactly` | scripts/run_stage2_isolated.py:713-744 | The parser accepts exactly the streams of framed files, each announced with its true length and digest under a new path it may carry, closed by a footer that binds them all, and returns just those |
| `Framing.AcceptedFilesStayInside` | scripts/run_stage2_isolated.py:728-743 | Every accepted file lies on a relative path without a two-dot component in one of the three listed places, is the encoding of some text and is one of at most 12000 |
| `Bytes.Utf8IsEncoding` | scripts/run_stage2_isolated.py:739 | The bytes taken as UTF-8 are exactly the encodings of sequences of scalar values |
| `Framing.ParseFramedBundle` | scripts/run_stage2_isolated.py:713-744 | The offset loop computes the parse |
| `Framing.FrameBundle` | scripts/run_stage2_isolated.py:701-710 | The framing loop produces the framed stream, or refuses it exactly when it is out of bounds |
| `ObjectStream.ObjectsReadBack` | scripts/public_source_release.py:153-179 | What Git prints for the listed blobs is read back, embedded newlines included |
| `ObjectStream.ObjectStreamsArePrefixFree` | scripts/public_source_release.py:153-179 | For a fixed list of objects no accepted stream strictly begins another |
| `ObjectStream.StreamsParseExactly` | scripts/public_source_release.py:153-179 | The parser accepts exactly the listed objects one after another, each under a header of its ID, the word blob and its length, and returns just their payloads |
| `ObjectStream.CommitPayloads` | scripts/public_source_release.py:153-179 | The cursor loop computes the parse |
| `Policy.GovernedByPolicy` | scripts/recovery_policy.py:343-373 | Supporting: the proposal never moves the decision and is accepted exactly when it agrees in full |
| `Actions.ContractBindsAction` | scripts/recovery_actions.py:80-252 | Supporting: one contract digest names one action, and the payload digest fixes every field money or stock depends on |

## Left out

- File-system hardening (link, inode and reparse checks), the process locks, fsync, Docker, seccomp, Git and
  subprocess code: replaced by atomic writes, crash points and mutual exclusion of calls on one journal.
- A verification is one look at the ledger, the journals and the receipt. The code's verifier takes no lock and reads
  the files one after another, so a call that runs beside it could be seen in part.
- Tampering during a run: the methods of the adapter and the orchestrator start from a directory the engine wrote.
  What the readers make of any other bytes is proved apart (`EffectReaders`, `AttemptJournals`, `MarkersBindLedger`).
- SHA-256: an injective digest over content. The sixteen hexadecimal digits in quarantine and recovery-command names
  are likewise taken to be injective.
- Canonical JSON encoding: headers and journal records go through any codec that prints one line per record and reads
  it back. Field-level schema checks of records, ID and currency patterns, message texts, and authority time windows
  are inputs already validated; fields that only repeat versions or labels are not in the records.
- Torn markers, receipts, snapshots and checkpoints: they fail closed in the code and are written whole here.
- The order in which resume visits checkpoint files, and journals with more than 999999 records, whose marker names
  would no longer sort.
- Event and workflow-state strings outside the vocabulary: an unknown event type is `Other`, an unknown state cannot
  be written.
- Facts derived from a source batch: a parameter of the use cases that need them. The evaluator-only field guard is
  not modelled.
- The adapter's journals are a field of the adapter object; the code builds a new adapter over the directory for each
  call and keeps nothing else in it.
- Liveness: nothing is claimed about repeated crashes, a taken quarantine name, a revision whose snapshot was written
  before a crash, or re-entering execution from the pending state. The seal protects the ledger only, as in the code.
- Evidence, decision and isolation pack builders, scoring, release authorisation, the Stage 1 generators and rules,
  the comparator, the demonstration UI: fixed-size equality checks and branch tables over I/O.
- Workspace.FileRecoveryWorkspace.ReviseSource: keeps the invariant only for its own event type and a fresh command ID,
  because the code checks neither; `LedgerInvariant.ReviseAgreesWithReplay` shows the condition to be exact.
- Workspace.FileRecoveryWorkspace.ReopenWithRevision: keeps the invariant only for a fresh command ID, for the same
  reason.
- CrashRecovery.RecoverySucceeds: needs a free quarantine name and an unused recovery command ID, which the code needs
  too.
