/**
 * Whole runs: any interleaving of guarded ledger calls, adapter calls under any fault, stored checks, recoveries and
 * crashes, over one run directory.
 */
module SystemRuns {
  import opened Results
  import opened Workflow
  import opened Records
  import opened Actions
  import opened Ledger
  import opened Writers
  import opened LedgerInvariant
  import opened LedgerHistory
  import opened GuardedChain
  import opened EffectScripts
  import Journals
  import EffectJournals
  import EffectOutcomes
  import Verifier
  import Workspace
  import WorkflowPaths
  import WriterRules

  type Power = Journals.Power

  /** The calls; the power says at which durable write the process dies. */
  datatype Call =
    | Append(cmd: Command, power: Power)
    | Reserve(a: Action, authority: Authority, commandId: CommandId, power: Power)
    | Revise(batch: Batch, actorKind: string, actorId: string, expectedRevision: int, expectedHead: Digest,
             commandId: CommandId, power: Power)
    | Reopen(batch: Batch, expectedRevision: int, expectedHead: Digest, commandId: CommandId, power: Power)
    | Recover(power: Power)
    | Freeze(power: Power)
    | Execute(a: Action, fault: Fault)
    | Verify(a: Action, id: string)
    | NoteCondition(v: Verification)
    | Record(id: string, current: Projection, commandId: CommandId, power: Power)

  /** What a call of the adapter does: sound journals before and after, and a committed view that followed the plan. */
  ghost predicate Executed(events: seq<Event>, f: EffectJournals.EffectFiles, a: Action, fault: Fault,
                           g: EffectJournals.EffectFiles) {
    && EffectJournals.LogsInv(g.logs) && EffectJournals.AttemptInv(g.attempts)
    && (ViewOf(g) == ViewOf(f) || (ValidAction(a) && FollowedPlan(events, ViewOf(f), a, fault, ViewOf(g))))
  }

  ghost predicate FollowedPlan(events: seq<Event>, v: View, a: Action, fault: Fault, w: View) {
    exists r :: Follows(v, a, ExecutePlan(v, EffectJournals.ReservedExactly(events, a), a, fault), w, r)
  }

  function Stored(w: World, v: Verification): World {
    w.(verifications := w.verifications[v.recordId := v])
  }

  ghost predicate Next(m: Manifest, w: World, c: Call, w': World) {
    match c
    case Append(cmd, power) =>
      Guarded(cmd) && w' == w.(ledger := AppendRun(m, w.ledger, cmd, power).0)
    case Reserve(a, authority, commandId, power) =>
      w' == w.(ledger := ReserveRun(m, w.ledger, a, authority, commandId, power).0)
    case Revise(batch, kind, id, revision, head, commandId, power) =>
      commandId !in CommandIds(w.ledger.journal.records)
      && w' == w.(ledger := RevisionRun(m, w.ledger, RevisePlan(m, w.ledger, batch, SourceRevisionChanged, kind, id,
                                                                revision, head, commandId), power).0)
    case Reopen(batch, revision, head, commandId, power) =>
      commandId !in CommandIds(w.ledger.journal.records)
      && w' == w.(ledger := RevisionRun(m, w.ledger, ReopenPlan(m, w.ledger, batch, revision, head, commandId),
                                        power).0)
    case Recover(power) => w' == w.(ledger := RecoverRun(m, w.ledger, power).0)
    case Freeze(power) => w' == w.(ledger := FreezeRun(m, w.ledger, power).0)
    case Execute(a, fault) =>
      w' == w.(effects := w'.effects) && Executed(Committed(w.ledger), w.effects, a, fault, w'.effects)
    case Verify(a, id) =>
      ValidAction(a) && ReceiptBinds(w.effects, a) && id !in w.verifications
      && w' == Stored(w, Verifier.VerificationFrom(a, ViewOf(w.effects).effects, id, true))
    case NoteCondition(v) => IsDirectCheck(v) && v.recordId !in w.verifications && w' == Stored(w, v)
    case Record(id, current, commandId, power) =>
      id in w.verifications && w.verifications[id].RemedyCheck?
      && w' == w.(ledger := AppendRun(m, w.ledger, RecordCommand(w.verifications[id], current, commandId), power).0)
  }

  // ---- one step ----

  lemma ExecutedGrows(events: seq<Event>, f: EffectJournals.EffectFiles, a: Action, fault: Fault,
                      g: EffectJournals.EffectFiles)
    requires Executed(events, f, a, fault, g)
    ensures Verifier.EffectsGrow(f, g)
    ensures forall id :: id in f.receipts ==> id in g.receipts && g.receipts[id] == f.receipts[id]
  {
    hide EffectJournals.LogsInv, EffectJournals.AttemptInv, ExecutePlan, EffectJournals.Committed,
         EffectJournals.CommittedAttempts, EffectJournals.EffectOf, Follows, FullyApplied,
         EffectJournals.ReservedExactly;
    var v, w := ViewOf(f), ViewOf(g);
    ViewShows(f);
    ViewShows(g);
    if v != w {
      var reserved := EffectJournals.ReservedExactly(events, a);
      var r :| Follows(v, a, ExecutePlan(v, reserved, a, fault), w, r);
      AnyCutGrows(v, reserved, a, fault, w, r);
      forall s ensures EffectJournals.Committed(f, s) <= EffectJournals.Committed(g, s) {
        assert GrewByOwn(v, w, a, s);
      }
    }
  }

  /** The step relation says nothing about backing or receipts; following the plan keeps them. */
  lemma ExecutedKeepsEffects(events: seq<Event>, f: EffectJournals.EffectFiles, a: Action, fault: Fault,
                             g: EffectJournals.EffectFiles)
    requires EffectJournals.EffectInv(events, f) && Executed(events, f, a, fault, g)
    ensures EffectJournals.EffectInv(events, g)
  {
    hide EffectJournals.EffectInv, EffectJournals.LogsInv, EffectJournals.AttemptInv, ExecutePlan, Follows,
         ValidAction, EffectJournals.ReservedExactly, ViewOf;
    if ViewOf(g) == ViewOf(f) {
      SameViewSameEffects(f, g);
      EffectJournals.SameEffectsKeep(events, f, g);
    } else {
      var r :| Follows(ViewOf(f), a, ExecutePlan(ViewOf(f), EffectJournals.ReservedExactly(events, a), a, fault),
                       ViewOf(g), r);
      PlanKeepsEffects(events, f, g, a, fault, r);
    }
  }

  lemma ExecuteKeeps(m: Manifest, w: World, a: Action, fault: Fault, g: EffectJournals.EffectFiles)
    requires SystemInv(m, w) && Executed(Committed(w.ledger), w.effects, a, fault, g)
    ensures SystemInv(m, w.(effects := g)) && Evolves(w, w.(effects := g))
  {
    hide SystemInv, ViewOf, FollowedPlan, Verifier.EffectsGrow, Grows, EffectJournals.EffectInv;
    SystemParts(m, w);
    ExecutedKeepsEffects(Committed(w.ledger), w.effects, a, fault, g);
    ExecutedGrows(Committed(w.ledger), w.effects, a, fault, g);
    EffectsMove(m, w, g);
  }

  lemma VerifyKeeps(m: Manifest, w: World, a: Action, id: string)
    requires SystemInv(m, w) && ValidAction(a) && ReceiptBinds(w.effects, a) && id !in w.verifications
    ensures var w' := Stored(w, Verifier.VerificationFrom(a, ViewOf(w.effects).effects, id, true));
            SystemInv(m, w') && Evolves(w, w')
  {
    hide SystemInv, CheckHolds, Evolves, ReceiptBinds, ValidAction, ViewOf, Verifier.Passed;
    SystemParts(m, w);
    CheckMadeHolds(Committed(w.ledger), w.effects, a, id);
    CheckStored(m, w, Verifier.VerificationFrom(a, ViewOf(w.effects).effects, id, true));
  }

  lemma ConditionKeeps(m: Manifest, w: World, v: Verification)
    requires SystemInv(m, w) && IsDirectCheck(v) && v.recordId !in w.verifications
    ensures SystemInv(m, Stored(w, v)) && Evolves(w, Stored(w, v))
  {
    hide SystemInv, Evolves;
    CheckStored(m, w, v);
  }

  lemma ReviseStepKeeps(m: Manifest, w: World, batch: Batch, kind: string, id: string, revision: int, head: Digest,
                        commandId: CommandId, power: Power)
    requires SystemInv(m, w) && commandId !in CommandIds(w.ledger.journal.records)
    ensures var plan := RevisePlan(m, w.ledger, batch, SourceRevisionChanged, kind, id, revision, head, commandId);
            var w' := w.(ledger := RevisionRun(m, w.ledger, plan, power).0);
            SystemInv(m, w') && Evolves(w, w')
  {
    hide SystemInv, RevisePlan, RevisionRun, Evolves, LedgerInv, Committed;
    SystemParts(m, w);
    Workspace.ReviseKeeps(m, w.ledger, batch, SourceRevisionChanged, kind, id, revision, head, commandId, power);
    RevisionCallKeeps(m, w, RevisePlan(m, w.ledger, batch, SourceRevisionChanged, kind, id, revision, head, commandId),
                      power);
  }

  lemma ReopenStepKeeps(m: Manifest, w: World, batch: Batch, revision: int, head: Digest, commandId: CommandId,
                        power: Power)
    requires SystemInv(m, w) && commandId !in CommandIds(w.ledger.journal.records)
    ensures var w' := w.(ledger := RevisionRun(m, w.ledger, ReopenPlan(m, w.ledger, batch, revision, head, commandId),
                                               power).0);
            SystemInv(m, w') && Evolves(w, w')
  {
    hide SystemInv, ReopenPlan, RevisionRun, Evolves, LedgerInv, Committed;
    SystemParts(m, w);
    Workspace.ReopenKeeps(m, w.ledger, batch, revision, head, commandId, power);
    RevisionCallKeeps(m, w, ReopenPlan(m, w.ledger, batch, revision, head, commandId), power);
  }

  lemma RecordStepKeeps(m: Manifest, w: World, id: string, current: Projection, commandId: CommandId, power: Power)
    requires SystemInv(m, w) && id in w.verifications && w.verifications[id].RemedyCheck?
    ensures var w' := w.(ledger := AppendRun(m, w.ledger, RecordCommand(w.verifications[id], current, commandId),
                                             power).0);
            SystemInv(m, w') && Evolves(w, w')
  {
    hide SystemInv, AppendRun, LedgerInv, Committed, Extends;
    RecordKeeps(m, w, id, current, commandId, power);
  }

  /** Every step of every call, cut anywhere, keeps the system invariant and takes nothing back. */
  lemma StepKeeps(m: Manifest, w: World, c: Call, w': World)
    requires SystemInv(m, w) && Next(m, w, c, w')
    ensures SystemInv(m, w') && Evolves(w, w')
  {
    hide SystemInv, Evolves, AppendRun, ReserveRun, RevisionRun, RecoverRun, FreezeRun, RevisePlan, ReopenPlan,
         Executed, Guarded, ReceiptBinds, ValidAction, CommandIds, Verifier.VerificationFrom, RecordCommand, Stored;
    match c
    case Append(cmd, power) => GuardedAppendKeeps(m, w, cmd, power);
    case Reserve(a, authority, commandId, power) => ReserveCallKeeps(m, w, a, authority, commandId, power);
    case Revise(batch, kind, id, revision, head, commandId, power) =>
      ReviseStepKeeps(m, w, batch, kind, id, revision, head, commandId, power);
    case Reopen(batch, revision, head, commandId, power) => ReopenStepKeeps(m, w, batch, revision, head, commandId,
                                                                            power);
    case Recover(power) => RecoveryCallKeeps(m, w, power);
    case Freeze(power) => FreezeKeeps(m, w, power);
    case Execute(a, fault) => ExecuteKeeps(m, w, a, fault, w'.effects);
    case Verify(a, id) => VerifyKeeps(m, w, a, id);
    case NoteCondition(v) => ConditionKeeps(m, w, v);
    case Record(id, current, commandId, power) => RecordStepKeeps(m, w, id, current, commandId, power);
  }

  // ---- runs ----

  /** What `prepare` leaves: at most the received event, no effect, no receipt, no check. */
  ghost predicate Prepared(m: Manifest, w: World) {
    && LedgerInv(m, w.ledger) && w.ledger.freeze.None?
    && |Committed(w.ledger)| <= 1
    && (forall i :: 0 <= i < |Committed(w.ledger)| ==> Committed(w.ledger)[i].body.eventType == CaseReceived
                                                       && Committed(w.ledger)[i].body.toState == Received)
    && EffectJournals.EffectInv([], w.effects)
    && w.verifications == map[]
  }

  ghost predicate IsRun(m: Manifest, worlds: seq<World>, calls: seq<Call>) {
    && |worlds| == |calls| + 1
    && Prepared(m, worlds[0])
    && forall i :: 0 <= i < |calls| ==> Next(m, worlds[i], calls[i], worlds[i + 1])
  }

  lemma PreparedHolds(m: Manifest, w: World)
    requires Prepared(m, w)
    ensures SystemInv(m, w)
  {
    hide LedgerInv, EffectJournals.EffectInv, Committed;
    EffectJournals.LedgerGrowthKeeps([], Committed(w.ledger), w.effects);
  }

  lemma EvolvesFurther(a: World, b: World, c: World)
    requires Evolves(a, b) && Evolves(b, c)
    ensures Evolves(a, c)
  {
    hide Committed, EffectJournals.Committed;
  }

  lemma EvolvesSelf(a: World)
    ensures Evolves(a, a)
  {
    hide Committed, EffectJournals.Committed;
  }

  /** Safety over whole runs: the system invariant holds in every world, and every world extends every earlier one. */
  lemma {:induction false} RunKeeps(m: Manifest, worlds: seq<World>, calls: seq<Call>, i: nat, j: nat)
    requires IsRun(m, worlds, calls) && i <= j < |worlds|
    ensures SystemInv(m, worlds[i]) && SystemInv(m, worlds[j]) && Evolves(worlds[i], worlds[j])
  {
    hide SystemInv, Evolves, Next, Prepared;
    if j == 0 {
      PreparedHolds(m, worlds[0]);
      EvolvesSelf(worlds[0]);
    } else if i == j {
      RunKeeps(m, worlds, calls, j - 1, j - 1);
      StepKeeps(m, worlds[j - 1], calls[j - 1], worlds[j]);
      EvolvesSelf(worlds[j]);
    } else {
      RunKeeps(m, worlds, calls, i, j - 1);
      StepKeeps(m, worlds[j - 1], calls[j - 1], worlds[j]);
      EvolvesFurther(worlds[i], worlds[j - 1], worlds[j]);
    }
  }

  // ---- what that means ----

  /** Some committed record of the source shows exactly what these terms call for. */
  ghost predicate Shows(f: EffectJournals.EffectFiles, t: ActionTerms, s: Source) {
    exists i :: 0 <= i < |EffectJournals.Committed(f, s)|
                && EffectJournals.ShowsTerms(EffectJournals.Committed(f, s)[i], t, s, i + 1)
  }

  /** A refund stands in the payment source; a reship in the order, the inventory and the warehouse source. */
  ghost predicate RemedyStands(f: EffectJournals.EffectFiles, t: ActionTerms) {
    match t.operation
    case Refund => Shows(f, t, PAYMENT)
    case Reship => Shows(f, t, OMS) && Shows(f, t, INVENTORY) && Shows(f, t, WMS)
  }

  lemma ExactEffectShows(f: EffectJournals.EffectFiles, a: Action, s: Source, n: int)
    requires Verifier.ExactEffect(f, a, s, n)
    ensures Shows(f, a.terms, s)
  {
    EffectJournals.EffectShowsTerms(a.terms, s, n);
    hide EffectJournals.EffectOf, EffectJournals.ShowsTerms;
    assert EffectJournals.ShowsTerms(EffectJournals.Committed(f, s)[n - 1], a.terms, s, n);
  }

  /** Where an operation has to show, in the literal list and in the table. */
  lemma StandsWhereRequired(f: EffectJournals.EffectFiles, t: ActionTerms)
    ensures RemedyStands(f, t) <==> forall s :: s in RequiredSources(t.operation) ==> Shows(f, t, s)
  {
    hide Shows;
    match t.operation
    case Refund =>
      assert RequiredSources(t.operation) == [PAYMENT];
      assert PAYMENT in RequiredSources(t.operation);
    case Reship =>
      assert RequiredSources(t.operation) == [OMS, INVENTORY, WMS];
      assert OMS in RequiredSources(t.operation) && INVENTORY in RequiredSources(t.operation)
             && WMS in RequiredSources(t.operation);
  }

  /** An event before this position reserved the action of this contract, under this very contract. */
  ghost predicate ReservedUnder(events: seq<Event>, k: nat, contract: Digest)
    requires contract.OfContract?
  {
    exists j :: 0 <= j < k && j < |events| && IsReservationOf(events[j], contract.terms.actionId)
                && events[j].body.decision.Reservation? && events[j].body.decision.contract == contract
  }

  predicate IsReservationOf(e: Event, actionId: string) {
    && e.body.eventType == ActionAuthorityReserved
    && ActionId in e.body.links && e.body.links[ActionId] == actionId
  }

  lemma BeforeIsUnder(events: seq<Event>, k: nat, contract: Digest)
    requires contract.OfContract?
    ensures ReservedBefore(events, k, contract) <==> ReservedUnder(events, k, contract)
  {
    if ReservedBefore(events, k, contract) {
      var j :| 0 <= j < k && j < |events| && EffectJournals.Reserves(events[j], contract.terms.actionId)
               && EffectJournals.ReservedContract(events[j]) == Some(contract);
      assert IsReservationOf(events[j], contract.terms.actionId);
    }
    if ReservedUnder(events, k, contract) {
      var j :| 0 <= j < k && j < |events| && IsReservationOf(events[j], contract.terms.actionId)
               && events[j].body.decision.Reservation? && events[j].body.decision.contract == contract;
      assert EffectJournals.Reserves(events[j], contract.terms.actionId);
    }
  }

  /** The adapter goes by exactly one reservation of the action ID, and it has to be of this contract. */
  lemma ReservedExactlyMeans(events: seq<Event>, a: Action)
    ensures EffectJournals.ReservedExactly(events, a)
            <==> exists i :: 0 <= i < |events| && IsReservationOf(events[i], a.terms.actionId)
                             && events[i].body.decision.Reservation?
                             && events[i].body.decision.contract == a.contract
                             && forall j :: 0 <= j < |events| && IsReservationOf(events[j], a.terms.actionId)
                                  ==> j == i
  {
    forall e: Event ensures EffectJournals.Reserves(e, a.terms.actionId) <==> IsReservationOf(e, a.terms.actionId) {
    }
    hide EffectJournals.Reserves, IsReservationOf;
  }

  /**
   * What reservation and adapter have to do with each other: the event a reservation writes is one the adapter goes by,
   * exactly when no earlier event reserved the same action ID.
   */
  lemma ReservationOpensExecution(events: seq<Event>, e: Event, a: Action, authority: Authority, commandId: CommandId)
    requires WriterRules.SaysReserved(e, a, authority, commandId)
    ensures EffectJournals.ReservedExactly(events + [e], a)
            <==> forall j :: 0 <= j < |events| ==> !IsReservationOf(events[j], a.terms.actionId)
  {
    var more := events + [e];
    ReservedExactlyMeans(more, a);
    assert more[|events|] == e && IsReservationOf(e, a.terms.actionId);
    assert forall j :: 0 <= j < |events| ==> more[j] == events[j];
    hide IsReservationOf;
  }

  /**
   * The contract a verdict names stands applied in the sources, the verdict names what that operation reached, and a
   * reservation under the contract came before.
   */
  ghost predicate VerdictTrue(events: seq<Event>, k: nat, f: EffectJournals.EffectFiles)
    requires k < |events|
  {
    var b := events[k].body;
    && b.decision.VerificationNoted? && b.decision.contract.OfContract?
    && ActionId in b.links && b.links[ActionId] == b.decision.contract.terms.actionId
    && ReservedUnder(events, k, b.decision.contract)
    && b.decision.classification == RemedyVerified
    && b.decision.milestone == (if b.decision.contract.terms.operation == Refund then RefundCommittedExact
                                else ReplacementCreatedReservedAccepted)
    && RemedyStands(f, b.decision.contract.terms)
  }

  lemma HoldingIsTrue(events: seq<Event>, k: nat, f: EffectJournals.EffectFiles)
    requires k < |events| && VerdictHolds(events, k, f)
    ensures VerdictTrue(events, k, f)
  {
    hide ReservedBefore, ReservedUnder;
    var d := events[k].body.decision;
    BeforeIsUnder(events, k, d.contract);
    EvidenceShows(f, d.contract, d.evidence);
  }

  lemma EvidenceShows(f: EffectJournals.EffectFiles, contract: Digest, evidence: map<Source, seq<Digest>>)
    requires contract.OfContract? && Verifier.EvidenceStands(f, ActionOf(contract), evidence)
    ensures RemedyStands(f, contract.terms)
  {
    hide Verifier.ExactEffect, Shows, RemedyStands, RequiredSources, EffectJournals.EffectOf;
    forall s | s in RequiredSources(contract.terms.operation) ensures Shows(f, contract.terms, s) {
      assert Verifier.EvidenceAt(f, ActionOf(contract), s, evidence[s]);
      var n :| Verifier.ExactEffect(f, ActionOf(contract), s, n);
      ExactEffectShows(f, ActionOf(contract), s, n);
    }
    StandsWhereRequired(f, contract.terms);
  }

  /**
   * End-to-end safety. In every reachable world, whatever was interleaved, injected or cut, a verdict in the
   * committed ledger means that the exact effects of the contract it names are committed in the source journals,
   * in that world and in every later one, and that a reservation under that contract precedes it.
   */
  lemma VerdictsAreTrue(m: Manifest, worlds: seq<World>, calls: seq<Call>, i: nat, j: nat, k: nat)
    requires IsRun(m, worlds, calls) && i <= j < |worlds|
    requires k < |Committed(worlds[i].ledger)| && IsVerdict(Committed(worlds[i].ledger)[k])
    ensures VerdictTrue(Committed(worlds[i].ledger), k, worlds[j].effects)
  {
    hide IsRun, LedgerInv, EffectJournals.EffectInv, Committed, VerdictHolds, ChecksHold, AllWellEntered,
         ReservationsDistinct;
    RunKeeps(m, worlds, calls, i, j);
    var early, late := Committed(worlds[i].ledger), Committed(worlds[j].ledger);
    assert early <= late;
    assert SoundAt(late, k, worlds[j].effects);
    HoldingIsTrue(late, k, worlds[j].effects);
    VerdictTrueInPrefix(early, late, k, worlds[j].effects);
  }

  lemma VerdictTrueInPrefix(events: seq<Event>, more: seq<Event>, k: nat, f: EffectJournals.EffectFiles)
    requires events <= more && k < |events| && VerdictTrue(more, k, f)
    ensures VerdictTrue(events, k, f)
  {
    hide RemedyStands, IsReservationOf;
    var contract := more[k].body.decision.contract;
    var j :| 0 <= j < k && IsReservationOf(more[j], contract.terms.actionId)
             && more[j].body.decision.Reservation? && more[j].body.decision.contract == contract;
    assert events[j] == more[j] && events[k] == more[k];
  }

  /** A verdict inside the current revision segment that is true of the sources. */
  ghost predicate EarnedByVerdict(events: seq<Event>, start: nat, f: EffectJournals.EffectFiles) {
    exists k :: start <= k < |events| && IsVerdict(events[k]) && VerdictTrue(events, k, f)
  }

  lemma RemedyEntryIsTrue(events: seq<Event>, start: nat, f: EffectJournals.EffectFiles)
    requires AllWellEntered(events) && VerdictsHold(events, f)
    requires exists k :: start <= k < |events| && WorkflowPaths.Enters(events[k], VerifiedRemedy)
    ensures EarnedByVerdict(events, start, f)
  {
    hide VerdictHolds, VerdictTrue;
    var k :| start <= k < |events| && WorkflowPaths.Enters(events[k], VerifiedRemedy);
    assert WellEntered(events[k]) && SoundAt(events, k, f);
    HoldingIsTrue(events, k, f);
  }

  lemma {:induction false} ClosedIsEarned(m: Manifest, w: World)
    requires SystemInv(m, w)
    requires var events := Committed(w.ledger); events != [] && events[|events| - 1].body.toState == Closed
    ensures var events := Committed(w.ledger);
            var start := WorkflowPaths.SegmentStart(events);
            WorkflowPaths.TookDirectCondition(events, start) || EarnedByVerdict(events, start, w.effects)
  {
    hide LedgerInv, EffectJournals.EffectInv, Committed, ChecksHold, ReservationsDistinct, Fold, VerdictHolds,
         VerdictTrue, WorkflowPaths.TookDirectCondition, WorkflowPaths.SegmentStart, WorkflowPaths.Visited,
         WorkflowPaths.ReservedAtMostOnce;
    var events := Committed(w.ledger);
    var start := WorkflowPaths.SegmentStart(events);
    CommittedReplays(m, w.ledger);
    WorkflowPaths.ClosureIsEarned(m, w.ledger.snapshots, events, |events| - 1);
    assert events[..|events|] == events;
    if !WorkflowPaths.TookDirectCondition(events, start) {
      WorkflowPaths.ChainEndsVerified(events, start);
      RemedyEntryIsTrue(events, start, w.effects);
    }
  }

  /**
   * Closed means done. In every reachable world a closed case either took a verified zero-action condition in a
   * segment that reserved nothing, or stands on a true verdict of the same revision segment.
   */
  lemma ClosedMeansDone(m: Manifest, worlds: seq<World>, calls: seq<Call>, i: nat)
    requires IsRun(m, worlds, calls) && i < |worlds|
    requires var events := Committed(worlds[i].ledger); events != [] && events[|events| - 1].body.toState == Closed
    ensures var events := Committed(worlds[i].ledger);
            var start := WorkflowPaths.SegmentStart(events);
            WorkflowPaths.TookDirectCondition(events, start) || EarnedByVerdict(events, start, worlds[i].effects)
  {
    hide IsRun, SystemInv, Evolves, Committed, WorkflowPaths.SegmentStart, WorkflowPaths.TookDirectCondition,
         EarnedByVerdict;
    RunKeeps(m, worlds, calls, i, i);
    ClosedIsEarned(m, worlds[i]);
  }

  /**
   * Exactly once. In every reachable world one action has at most one committed effect per source, and it is the one
   * its contract prescribes, field by field and in a source of its operation; and all committed effects of one case
   * and business key, in whichever journals, are one action's under one contract.
   */
  lemma EffectsAreExactlyOnce(m: Manifest, worlds: seq<World>, calls: seq<Call>, i: nat, s: Source, t: Source, p: nat,
                              q: nat)
    requires IsRun(m, worlds, calls) && i < |worlds|
    requires var f := worlds[i].effects; p < |EffectJournals.Committed(f, s)| && q < |EffectJournals.Committed(f, t)|
    ensures var x, y := EffectJournals.Committed(worlds[i].effects, s)[p],
            EffectJournals.Committed(worlds[i].effects, t)[q];
            && (x.actionId == y.actionId && s == t ==> p == q)
            && (x.caseId == y.caseId && x.businessKey == y.businessKey ==> x.actionId == y.actionId)
            && (x.actionId == y.actionId ==> x.contract == y.contract)
            && x.contract.OfContract? && EffectJournals.ShowsTerms(x, x.contract.terms, s, p + 1)
            && (if x.contract.terms.operation == Refund then s == PAYMENT else s != PAYMENT)
  {
    hide IsRun, LedgerInv, Committed, VerdictsHold, ChecksHold, AllWellEntered, ReservationsDistinct, Evolves,
         EffectJournals.EffectOf;
    RunKeeps(m, worlds, calls, i, i);
    EffectsOnce(Committed(worlds[i].ledger), worlds[i].effects, s, t, p, q);
  }

  lemma EffectsOnce(events: seq<Event>, f: EffectJournals.EffectFiles, s: Source, t: Source, p: nat, q: nat)
    requires EffectJournals.EffectInv(events, f)
    requires p < |EffectJournals.Committed(f, s)| && q < |EffectJournals.Committed(f, t)|
    ensures var x, y := EffectJournals.Committed(f, s)[p], EffectJournals.Committed(f, t)[q];
            && (x.actionId == y.actionId && s == t ==> p == q)
            && (x.caseId == y.caseId && x.businessKey == y.businessKey ==> x.actionId == y.actionId)
            && (x.actionId == y.actionId ==> x.contract == y.contract)
            && x.contract.OfContract? && EffectJournals.ShowsTerms(x, x.contract.terms, s, p + 1)
            && (if x.contract.terms.operation == Refund then s == PAYMENT else s != PAYMENT)
  {
    var x, y := EffectJournals.Committed(f, s)[p], EffectJournals.Committed(f, t)[q];
    EffectJournals.EffectIsUniqueAndExact(events, f, s, p, p);
    assert EffectJournals.Backed(events, s, x);
    EffectJournals.EffectShowsTerms(x.contract.terms, s, p + 1);
    EffectOutcomes.WhereItWrites(x.contract.terms.operation);
    hide RequiredSources, EffectJournals.ShowsTerms;
    if x.actionId == y.actionId {
      EffectJournals.OneContractPerAction(events, f, s, t, p, q);
      if s == t {
        EffectJournals.EffectIsUniqueAndExact(events, f, s, p, q);
      }
    }
    hide EffectJournals.EffectOf, EffectJournals.Backed, EffectJournals.LogInv, EffectJournals.Committed,
         EffectJournals.ReceiptsBacked, EffectJournals.AttemptInv;
    assert EffectJournals.OneActionPerRemedy(f);
    assert x.caseId == y.caseId && x.businessKey == y.businessKey
           ==> EffectJournals.SameRemedy(x, y.caseId, y.businessKey);
  }

  /**
   * Receipt completeness over runs. Once any world holds a receipt for an action, verifying it there or in any later
   * world finds the remedy.
   */
  lemma ReceiptsVerifyForever(m: Manifest, worlds: seq<World>, calls: seq<Call>, i: nat, j: nat, a: Action, id: string,
                              present: bool)
    requires IsRun(m, worlds, calls) && i <= j < |worlds|
    requires ValidAction(a) && ReceiptBinds(worlds[i].effects, a)
    ensures Verifier.VerificationFrom(a, ViewOf(worlds[j].effects).effects, id, present).classification
            == RemedyVerified
  {
    hide IsRun, LedgerInv, EffectJournals.EffectInv, Committed, VerdictsHold, ChecksHold, ReservationsDistinct,
         Verifier.VerificationFrom, ValidAction, ViewOf, Verifier.EffectsGrow, AllWellEntered;
    RunKeeps(m, worlds, calls, i, j);
    Verifier.ReceiptMeansVerified(Committed(worlds[i].ledger), worlds[i].effects, Committed(worlds[j].ledger),
                                  worlds[j].effects, a, id, present);
  }

  /** A receipt on record: for this action, under a contract reserved for it, over the remedy in the sources. */
  ghost predicate ReceiptTrue(events: seq<Event>, f: EffectJournals.EffectFiles, id: string, r: Receipt) {
    && r.actionId == id && r.contract.OfContract? && r.contract.terms.actionId == id
    && r.operation == r.contract.terms.operation
    && ReservedUnder(events, |events|, r.contract)
    && RemedyStands(f, r.contract.terms)
  }

  lemma AppliedShows(events: seq<Event>, f: EffectJournals.EffectFiles, id: string, r: Receipt, s: Source)
    requires EffectJournals.LogsInv(f.logs) && EffectJournals.AllBacked(events, f)
    requires EffectJournals.ReceiptBacked(events, f, id, r) && s in RequiredSources(r.contract.terms.operation)
    ensures Shows(f, r.contract.terms, s) && r.contract.terms.actionId == id
  {
    hide EffectJournals.LogInv, EffectJournals.CommittedIn, EffectJournals.EffectOf, RequiredSources,
         EffectJournals.ShowsTerms;
    var effects := EffectJournals.Committed(f, s);
    assert EffectJournals.HasId(effects, id);
    var i :| 0 <= i < |effects| && effects[i].actionId == id;
    assert EffectJournals.Backed(events, s, effects[i]);
    assert s in f.logs;
    Verifier.CommittedInOrder(s, f.logs[s]);
    EffectJournals.EffectNames(r.contract.terms, s, i + 1);
    EffectJournals.EffectShowsTerms(r.contract.terms, s, i + 1);
    assert EffectJournals.ShowsTerms(effects[i], r.contract.terms, s, i + 1);
  }

  lemma BackedReceiptIsTrue(events: seq<Event>, f: EffectJournals.EffectFiles, id: string)
    requires EffectJournals.EffectInv(events, f) && id in f.receipts
    ensures ReceiptTrue(events, f, id, f.receipts[id])
  {
    var r := f.receipts[id];
    assert EffectJournals.ReceiptBacked(events, f, id, r);
    EffectJournals.FirstReservedIsOne(events, id);
    BeforeIsUnder(events, |events|, r.contract);
    hide EffectJournals.LogsInv, EffectJournals.AllBacked, EffectJournals.AttemptInv, Shows, RemedyStands,
         RequiredSources, EffectJournals.OneActionPerRemedy, ReservedUnder;
    forall s | s in RequiredSources(r.contract.terms.operation) ensures Shows(f, r.contract.terms, s) {
      AppliedShows(events, f, id, r, s);
    }
    StandsWhereRequired(f, r.contract.terms);
    AppliedShows(events, f, id, r, RequiredSources(r.contract.terms.operation)[0]);
  }

  /**
   * A receipt means the remedy. In every reachable world a receipt is for its own action under a contract reserved for
   * it, and the sources show the money back, or the replacement ordered, taken from stock and accepted by the
   * warehouse; the same receipt stands over the same remedy in every later world.
   */
  lemma ReceiptsAreTrue(m: Manifest, worlds: seq<World>, calls: seq<Call>, i: nat, j: nat, id: string)
    requires IsRun(m, worlds, calls) && i <= j < |worlds| && id in worlds[i].effects.receipts
    ensures id in worlds[j].effects.receipts
    ensures worlds[j].effects.receipts[id] == worlds[i].effects.receipts[id]
    ensures ReceiptTrue(Committed(worlds[j].ledger), worlds[j].effects, id, worlds[i].effects.receipts[id])
  {
    hide IsRun, LedgerInv, EffectJournals.EffectInv, Committed, VerdictsHold, ChecksHold, AllWellEntered,
         ReservationsDistinct, Verifier.EffectsGrow, ReceiptTrue;
    RunKeeps(m, worlds, calls, i, j);
    BackedReceiptIsTrue(Committed(worlds[j].ledger), worlds[j].effects, id);
  }

  // ---- the seal ----

  /** The seal names the last committed event and its revision. */
  predicate SealNamesHead(f: Files) {
    f.freeze.Some?
    ==> && Committed(f) != [] && f.freeze.value.head == Committed(f)[|Committed(f)| - 1].digest
        && f.freeze.value.revision == Committed(f)[|Committed(f)| - 1].body.revision
  }

  lemma CommitKeepsSeal(m: Manifest, f: Files, e: Event, power: Power)
    ensures CommitRun(m, f, e, power).0.freeze == f.freeze
  {
    hide Project;
  }

  lemma AppendKeepsSeal(m: Manifest, f: Files, cmd: Command, power: Power)
    ensures AppendRun(m, f, cmd, power).0.freeze == f.freeze
  {
    hide AppendPlan, CommitRun;
    if AppendPlan(m, f, cmd).Ok? && AppendPlan(m, f, cmd).value.Commit? {
      CommitKeepsSeal(m, f, AppendPlan(m, f, cmd).value.event, power);
    }
  }

  lemma ReserveKeepsSeal(m: Manifest, f: Files, a: Action, authority: Authority, commandId: CommandId, power: Power)
    ensures ReserveRun(m, f, a, authority, commandId, power).0.freeze == f.freeze
  {
    hide ReservePlan, CommitRun;
    var plan := ReservePlan(m, f, a, authority, commandId);
    if plan.Ok? && plan.value.Commit? {
      CommitKeepsSeal(m, f, plan.value.event, power);
    }
  }

  lemma RevisionKeepsSeal(m: Manifest, f: Files, plan: Result<RevisionPlan>, power: Power)
    ensures RevisionRun(m, f, plan, power).0.freeze == f.freeze
  {
    hide CommitRun;
    if plan.Ok? && power.writes > 0 {
      CommitKeepsSeal(m, WithSnapshot(f, plan.value.batch), plan.value.event, power.(writes := power.writes - 1));
    }
  }

  lemma RecoveryKeepsSeal(m: Manifest, f: Files, power: Power)
    ensures RecoverRun(m, f, power).0.freeze == f.freeze
  {
    hide RecoverPlan, AppendRun;
    var plan := RecoverPlan(m, f);
    if plan.Ok? && plan.value.DropTail? && power.writes >= 2 {
      var tail := plan.value.tail;
      AppendKeepsSeal(m, Truncated(Quarantined(f, tail), tail), RecoveryCommand(tail, plan.value.previous),
                      power.(writes := power.writes - 2));
    }
  }

  /** A sealed ledger is left as it is by every call of the ledger. */
  lemma SealedStays(m: Manifest, w: World, c: Call, w': World)
    requires Next(m, w, c, w') && w.ledger.freeze.Some?
    ensures w'.ledger == w.ledger
  {
    hide CommitRun, Project, ReadEvents, ScanReservations, Executed, Guarded, ReceiptBinds, ValidAction, CommandIds,
         Verifier.VerificationFrom, RecordCommand, AuthorityBinds, AcceptableHeads, ReservationCommand, IsDirectCheck,
         ViewOf;
  }

  /** An open ledger is sealed only by the seal, which names its head. */
  lemma StepKeepsSeal(m: Manifest, w: World, c: Call, w': World)
    requires SystemInv(m, w) && Next(m, w, c, w') && SealNamesHead(w.ledger)
    ensures SealNamesHead(w'.ledger)
  {
    hide SystemInv, LedgerInv, Committed, AppendRun, ReserveRun, RevisionRun, RecoverRun, FreezeRun, RevisePlan,
         ReopenPlan, Executed, Guarded, ReceiptBinds, ValidAction, CommandIds, Verifier.VerificationFrom,
         RecordCommand;
    SystemParts(m, w);
    if w.ledger.freeze.Some? {
      SealedStays(m, w, c, w');
    } else {
      OpenStep(m, w, c, w');
    }
  }

  lemma OpenStep(m: Manifest, w: World, c: Call, w': World)
    requires LedgerInv(m, w.ledger) && Next(m, w, c, w') && w.ledger.freeze.None?
    ensures SealNamesHead(w'.ledger)
  {
    hide LedgerInv, AppendRun, ReserveRun, RevisionRun, RecoverRun, FreezeRun, RevisePlan,
         ReopenPlan, Executed, Guarded, ReceiptBinds, ValidAction, CommandIds, Verifier.VerificationFrom,
         RecordCommand, Tidy;
    var f := w.ledger;
    match c
    case Append(cmd, power) => AppendKeepsSeal(m, f, cmd, power);
    case Reserve(a, authority, id, power) => ReserveKeepsSeal(m, f, a, authority, id, power);
    case Revise(batch, kind, id, revision, head, commandId, power) =>
      var plan := RevisePlan(m, f, batch, SourceRevisionChanged, kind, id, revision, head, commandId);
      RevisionKeepsSeal(m, f, plan, power);
    case Reopen(batch, revision, head, commandId, power) =>
      RevisionKeepsSeal(m, f, ReopenPlan(m, f, batch, revision, head, commandId), power);
    case Recover(power) => RecoveryKeepsSeal(m, f, power);
    case Freeze(power) =>
      WriterRules.FreezeSealsHead(m, f, power);
      SameCommitted(f, FreezeRun(m, f, power).0);
    case Record(id, current, commandId, power) =>
      AppendKeepsSeal(m, f, RecordCommand(w.verifications[id], current, commandId), power);
    case _ =>
  }

  lemma SameCommitted(f: Files, g: Files)
    ensures g.(freeze := None) == f ==> Committed(g) == Committed(f)
  {
  }

  lemma {:induction false} SealsNameHeads(m: Manifest, worlds: seq<World>, calls: seq<Call>, i: nat)
    requires IsRun(m, worlds, calls) && i < |worlds|
    ensures SealNamesHead(worlds[i].ledger)
  {
    hide SystemInv, Next, SealNamesHead, LedgerInv, Committed, EffectJournals.EffectInv, Evolves;
    if i == 0 {
      NoSealYet(worlds[0].ledger);
    } else {
      SealsNameHeads(m, worlds, calls, i - 1);
      RunKeeps(m, worlds, calls, i - 1, i - 1);
      StepKeepsSeal(m, worlds[i - 1], calls[i - 1], worlds[i]);
    }
  }

  lemma NoSealYet(f: Files)
    requires f.freeze.None?
    ensures SealNamesHead(f)
  {
  }

  /**
   * The seal is final. Once a world is sealed, every later world of the run has the very same ledger directory, and the
   * seal names the digest and the revision of its last event.
   */
  lemma {:induction false} SealIsFinal(m: Manifest, worlds: seq<World>, calls: seq<Call>, i: nat, j: nat)
    requires IsRun(m, worlds, calls) && i <= j < |worlds| && worlds[i].ledger.freeze.Some?
    ensures worlds[j].ledger == worlds[i].ledger
    ensures var events := Committed(worlds[j].ledger);
            && events != [] && worlds[j].ledger.freeze.value.head == events[|events| - 1].digest
            && worlds[j].ledger.freeze.value.revision == events[|events| - 1].body.revision
  {
    hide Next, Prepared, Committed;
    SealsNameHeads(m, worlds, calls, j);
    if i < j {
      SealIsFinal(m, worlds, calls, i, j - 1);
      SealedStays(m, worlds[j - 1], calls[j - 1], worlds[j]);
    }
  }

  /** The guarded chain never reaches a failed verification: no event of a reachable ledger enters that state. */
  lemma FailureIsNeverEntered(m: Manifest, worlds: seq<World>, calls: seq<Call>, i: nat, k: nat)
    requires IsRun(m, worlds, calls) && i < |worlds| && k < |Committed(worlds[i].ledger)|
    ensures Committed(worlds[i].ledger)[k].body.toState != VerificationFailed
  {
    hide IsRun, LedgerInv, EffectJournals.EffectInv, Committed, VerdictsHold, ChecksHold, ReservationsDistinct,
         Evolves;
    RunKeeps(m, worlds, calls, i, i);
    assert WellEntered(Committed(worlds[i].ledger)[k]);
  }

  /** Cache validity over runs: a checkpoint once written validates against every later readable ledger. */
  lemma CheckpointsStayValid(m: Manifest, worlds: seq<World>, calls: seq<Call>, i: nat, j: nat, k: int)
    requires IsRun(m, worlds, calls) && i <= j < |worlds|
    requires k in worlds[i].ledger.checkpoints && Tidy(worlds[j].ledger)
    ensures var p, g := worlds[i].ledger.checkpoints[k], worlds[j].ledger;
            && k in g.checkpoints && g.checkpoints[k] == p && p.sequence == k
            && ReadEvents(m, g) == Ok(Committed(g)) && CheckpointValid(m, g, p, Committed(g))
  {
    hide IsRun, LedgerInv, EffectJournals.EffectInv, Committed, VerdictsHold, ChecksHold, ReservationsDistinct,
         AllWellEntered, Extends, CheckpointValid, ReadEvents;
    RunKeeps(m, worlds, calls, i, j);
    CheckpointStaysValid(m, worlds[i].ledger, worlds[j].ledger, k);
  }

  /** Reservation uniqueness over runs, and one reservation at most in each revision segment. */
  lemma ReservationsAreUnique(m: Manifest, worlds: seq<World>, calls: seq<Call>, i: nat)
    requires IsRun(m, worlds, calls) && i < |worlds|
    ensures ReservationsDistinct(Committed(worlds[i].ledger))
    ensures var events := Committed(worlds[i].ledger);
            events != [] ==> WorkflowPaths.ReservedAtMostOnce(events, WorkflowPaths.SegmentStart(events))
  {
    hide IsRun, LedgerInv, EffectJournals.EffectInv, Committed, VerdictsHold, ChecksHold, ReservationsDistinct,
         AllWellEntered, Evolves, Fold, WorkflowPaths.ReservedAtMostOnce;
    RunKeeps(m, worlds, calls, i, i);
    if Committed(worlds[i].ledger) != [] {
      CommittedReplays(m, worlds[i].ledger);
      WorkflowPaths.OneReservationPerSegment(m, worlds[i].ledger.snapshots, Committed(worlds[i].ledger));
    }
  }

  // ---- no blind retry, over runs ----

  /** Some but not all of the remedy is committed, and no receipt stands for it. */
  ghost predicate StuckHalfway(w: World, a: Action) {
    PartlyApplied(ViewOf(w.effects), a) && a.terms.actionId !in w.effects.receipts
  }

  lemma SameActionWhenReserved(events: seq<Event>, a: Action, b: Action)
    requires Verifier.Owns(events, a) && ValidAction(b) && EffectJournals.ReservedExactly(events, b)
    requires b.terms.actionId == a.terms.actionId
    ensures b == a
  {
    EffectJournals.ReservedExactlyIsFirst(events, b);
    ContractBindsAction(a, b);
  }

  lemma StepLeavesHalfway(m: Manifest, w: World, c: Call, w': World, a: Action)
    requires SystemInv(m, w) && Next(m, w, c, w')
    requires Verifier.Owns(Committed(w.ledger), a) && StuckHalfway(w, a)
    ensures StuckHalfway(w', a) && Present(ViewOf(w'.effects), a) == Present(ViewOf(w.effects), a)
  {
    hide SystemInv, AppendRun, ReserveRun, RevisionRun, RecoverRun, FreezeRun, RevisePlan, ReopenPlan,
         EffectJournals.EffectInv, Guarded, ReceiptBinds, CommandIds, Verifier.VerificationFrom, Verifier.Owns,
         RecordCommand, PartlyApplied, ExecutePlan, Follows, ValidAction, EffectJournals.ReservedExactly,
         EffectJournals.Committed, EffectJournals.CommittedAttempts, Committed;
    if c.Execute? && ViewOf(w'.effects) != ViewOf(w.effects) {
      var v, u := ViewOf(w.effects), ViewOf(w'.effects);
      var reserved := EffectJournals.ReservedExactly(Committed(w.ledger), c.a);
      var r :| Follows(v, c.a, ExecutePlan(v, reserved, c.a, c.fault), u, r);
      if !reserved {
        UnreservedMovesNothing(v, c.a, c.fault, u, r);
      } else {
        if c.a.terms.actionId == a.terms.actionId {
          SameActionWhenReserved(Committed(w.ledger), a, c.a);
        }
        PartialStays(v, a, reserved, c.a, c.fault, u, r);
      }
    }
  }

  /**
   * Once a reshipment is partly applied, no later call of any run, retry or other action, adds an effect to it or
   * issues its receipt.
   */
  lemma {:induction false} HalfwayIsForever(m: Manifest, worlds: seq<World>, calls: seq<Call>, i: nat, j: nat,
                                            a: Action)
    requires IsRun(m, worlds, calls) && i <= j < |worlds|
    requires Verifier.Owns(Committed(worlds[i].ledger), a) && StuckHalfway(worlds[i], a)
    ensures StuckHalfway(worlds[j], a)
    ensures Present(ViewOf(worlds[j].effects), a) == Present(ViewOf(worlds[i].effects), a)
  {
    hide SystemInv, Next, StuckHalfway, Prepared, Verifier.Owns, Committed, Verifier.EffectsGrow;
    if i < j {
      HalfwayIsForever(m, worlds, calls, i, j - 1, a);
      RunKeeps(m, worlds, calls, i, j - 1);
      OwnsStays(Committed(worlds[i].ledger), Committed(worlds[j - 1].ledger), a);
      StepLeavesHalfway(m, worlds[j - 1], calls[j - 1], worlds[j], a);
    }
  }
}
