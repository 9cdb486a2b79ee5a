/**
 * The whole run directory as one state, and what its guarded calls keep: a verdict in the ledger is backed by the
 * source effects as they stand, and by a reservation before it.
 */
module GuardedChain {
  import opened Results
  import opened Workflow
  import opened Records
  import opened Actions
  import opened Journals
  import opened Ledger
  import opened Writers
  import opened LedgerInvariant
  import opened LedgerHistory
  import CrashRecovery
  import EffectJournals
  import EffectScripts
  import Verifier
  import Workspace
  import WorkflowPaths

  datatype World = World(ledger: Files, effects: EffectJournals.EffectFiles, verifications: map<string, Verification>)

  /** The action a contract digest names. */
  function ActionOf(contract: Digest): Action
    requires contract.OfContract?
  {
    Action(contract.terms.actionId, contract.terms, contract)
  }

  /** Some earlier event reserved this action ID under this contract. */
  ghost predicate ReservedBefore(events: seq<Event>, i: nat, contract: Digest)
    requires contract.OfContract?
  {
    exists j :: 0 <= j < i && j < |events| && EffectJournals.Reserves(events[j], contract.terms.actionId)
                && EffectJournals.ReservedContract(events[j]) == Some(contract)
  }

  predicate IsVerdict(e: Event) {
    e.body.eventType == AuthoritativeRemedyVerified
  }

  /** What a verified operation has reached: money back, or a replacement on its way. */
  predicate Reached(operation: Operation, milestone: Milestone) {
    match operation
    case Refund => milestone == RefundCommittedExact
    case Reship => milestone == ReplacementCreatedReservedAccepted
  }

  /** An event that declares the remedy verified, with everything it claims. */
  ghost predicate VerdictHolds(events: seq<Event>, i: nat, f: EffectJournals.EffectFiles)
    requires i < |events|
  {
    var b := events[i].body;
    && b.decision.VerificationNoted? && b.decision.contract.OfContract?
    && b.decision.classification == RemedyVerified
    && Reached(b.decision.contract.terms.operation, b.decision.milestone)
    && ActionId in b.links && b.links[ActionId] == b.decision.contract.terms.actionId
    && ReservedBefore(events, i, b.decision.contract)
    && Verifier.EvidenceStands(f, ActionOf(b.decision.contract), b.decision.evidence)
  }

  ghost predicate SoundAt(events: seq<Event>, i: nat, f: EffectJournals.EffectFiles)
    requires i < |events|
  {
    IsVerdict(events[i]) ==> VerdictHolds(events, i, f)
  }

  ghost predicate VerdictsHold(events: seq<Event>, f: EffectJournals.EffectFiles) {
    forall i :: 0 <= i < |events| ==> SoundAt(events, i, f)
  }

  /** The consequential states are entered only by the event each of them is named for, and failure never. */
  predicate WellEntered(e: Event) {
    && (WorkflowPaths.Enters(e, ActionReserved) ==> IsReservation(e))
    && (WorkflowPaths.Enters(e, VerifiedRemedy) ==> IsVerdict(e))
    && e.body.toState != VerificationFailed
  }

  predicate AllWellEntered(events: seq<Event>) {
    forall i :: 0 <= i < |events| ==> WellEntered(events[i])
  }

  /** A direct condition is a wait on a current estimate, or a remedy that was there before. */
  predicate IsDirectCheck(v: Verification) {
    && v.ConditionCheck?
    && ((v.classification == WaitCondition && v.milestone == CurrentReliableEta)
        || (v.classification == NoNewActionCondition && v.milestone == PriorRemedyCoversQuantity))
  }

  /**
   * A stored remedy check found the remedy, names what was reached, and is right about the sources and about who
   * reserved the action; any other stored check is a direct condition.
   */
  ghost predicate CheckHolds(events: seq<Event>, f: EffectJournals.EffectFiles, v: Verification) {
    if v.RemedyCheck? then
      && v.classification == RemedyVerified && v.contract.OfContract? && v.actionId == v.contract.terms.actionId
      && Reached(v.contract.terms.operation, v.milestone)
      && Verifier.Owns(events, ActionOf(v.contract))
      && Verifier.EvidenceStands(f, ActionOf(v.contract), v.evidence)
    else
      IsDirectCheck(v)
  }

  ghost predicate ChecksHold(events: seq<Event>, w: World) {
    forall id :: id in w.verifications ==> CheckHolds(events, w.effects, w.verifications[id])
  }

  ghost predicate SystemInv(m: Manifest, w: World) {
    && LedgerInv(m, w.ledger)
    && EffectJournals.EffectInv(Committed(w.ledger), w.effects)
    && ReservationsDistinct(Committed(w.ledger))
    && AllWellEntered(Committed(w.ledger))
    && VerdictsHold(Committed(w.ledger), w.effects)
    && ChecksHold(Committed(w.ledger), w)
  }

  /** What no guarded call takes back. */
  ghost predicate Evolves(w: World, w': World) {
    && Extends(w.ledger, w'.ledger)
    && Verifier.EffectsGrow(w.effects, w'.effects)
    && (forall id :: id in w.effects.receipts ==>
          id in w'.effects.receipts && w'.effects.receipts[id] == w.effects.receipts[id])
    && (forall id :: id in w.verifications ==> id in w'.verifications && w'.verifications[id] == w.verifications[id])
  }

  // ---- the ledger moves ----

  lemma OwnsStays(events: seq<Event>, more: seq<Event>, a: Action)
    requires Verifier.Owns(events, a) && events <= more
    ensures Verifier.Owns(more, a)
  {
    hide ValidAction;
    EffectJournals.FirstReservedStays(events, more, a.terms.actionId);
  }

  lemma OwnerReserved(events: seq<Event>, a: Action)
    requires Verifier.Owns(events, a)
    ensures ReservedBefore(events, |events|, a.contract)
  {
    EffectJournals.FirstReservedIsOne(events, a.terms.actionId);
  }

  lemma VerdictStays(events: seq<Event>, more: seq<Event>, i: nat, f: EffectJournals.EffectFiles)
    requires i < |events| && events <= more && VerdictHolds(events, i, f)
    ensures VerdictHolds(more, i, f)
  {
    hide Verifier.EvidenceStands;
    var contract := events[i].body.decision.contract;
    var j :| 0 <= j < i && j < |events| && EffectJournals.Reserves(events[j], contract.terms.actionId)
             && EffectJournals.ReservedContract(events[j]) == Some(contract);
    assert more[j] == events[j] && more[i] == events[i];
  }

  /** The ledger may grow by any events but unsupported verdicts and clashing reservations. */
  lemma LedgerMoves(m: Manifest, w: World, g: Files)
    requires SystemInv(m, w) && LedgerInv(m, g) && Committed(w.ledger) <= Committed(g)
    requires ReservationsDistinct(Committed(g)) && AllWellEntered(Committed(g))
    requires forall i :: |Committed(w.ledger)| <= i < |Committed(g)| ==> SoundAt(Committed(g), i, w.effects)
    ensures SystemInv(m, w.(ledger := g))
  {
    hide LedgerInv, EffectJournals.EffectInv, ReservationsDistinct, Committed, VerdictHolds, Verifier.Owns,
         Verifier.EvidenceStands, WellEntered;
    var events, more := Committed(w.ledger), Committed(g);
    EffectJournals.LedgerGrowthKeeps(events, more, w.effects);
    forall i | 0 <= i < |more| ensures SoundAt(more, i, w.effects) {
      if i < |events| && IsVerdict(events[i]) {
        assert SoundAt(events, i, w.effects);
        VerdictStays(events, more, i, w.effects);
      }
    }
    forall id | id in w.verifications ensures CheckHolds(more, w.effects, w.verifications[id]) {
      var v := w.verifications[id];
      assert CheckHolds(events, w.effects, v);
      if v.RemedyCheck? {
        OwnsStays(events, more, ActionOf(v.contract));
      }
    }
  }

  // ---- the effects move ----

  lemma EffectsMove(m: Manifest, w: World, g: EffectJournals.EffectFiles)
    requires SystemInv(m, w) && EffectJournals.EffectInv(Committed(w.ledger), g) && Verifier.EffectsGrow(w.effects, g)
    ensures SystemInv(m, w.(effects := g))
  {
    hide LedgerInv, EffectJournals.EffectInv, ReservationsDistinct, Committed, Verifier.Owns, Verifier.EvidenceStands,
         Verifier.EffectsGrow, ReservedBefore, WellEntered;
    var events := Committed(w.ledger);
    forall i | 0 <= i < |events| ensures SoundAt(events, i, g) {
      assert SoundAt(events, i, w.effects);
      if IsVerdict(events[i]) {
        var d := events[i].body.decision;
        Verifier.EvidenceSurvives(w.effects, g, ActionOf(d.contract), d.evidence);
      }
    }
    forall id | id in w.verifications ensures CheckHolds(events, g, w.verifications[id]) {
      var v := w.verifications[id];
      assert CheckHolds(events, w.effects, v);
      if v.RemedyCheck? {
        Verifier.EvidenceSurvives(w.effects, g, ActionOf(v.contract), v.evidence);
      }
    }
  }

  // ---- verification and its record ----

  /** What `verify_active_action` has seen before it classifies: a receipt for this very contract. */
  predicate ReceiptBinds(f: EffectJournals.EffectFiles, a: Action) {
    a.terms.actionId in f.receipts && f.receipts[a.terms.actionId].actionId == a.terms.actionId
    && f.receipts[a.terms.actionId].contract == a.contract
  }

  lemma ReceiptOwns(events: seq<Event>, f: EffectJournals.EffectFiles, a: Action)
    requires EffectJournals.EffectInv(events, f) && ValidAction(a) && ReceiptBinds(f, a)
    ensures Verifier.Owns(events, a)
  {
    hide EffectJournals.LogsInv, EffectJournals.AttemptInv, EffectJournals.AllBacked,
         EffectJournals.OneActionPerRemedy, EffectJournals.Applied, ValidAction;
    assert EffectJournals.ReceiptBacked(events, f, a.terms.actionId, f.receipts[a.terms.actionId]);
  }

  /** A check made behind a binding receipt always finds the remedy, and may be stored. */
  lemma CheckMadeHolds(events: seq<Event>, f: EffectJournals.EffectFiles, a: Action, id: string)
    requires EffectJournals.EffectInv(events, f) && ValidAction(a) && ReceiptBinds(f, a)
    ensures var v := Verifier.VerificationFrom(a, EffectScripts.ViewOf(f).effects, id, true);
            CheckHolds(events, f, v)
  {
    hide EffectJournals.EffectInv, Verifier.EvidenceStands, Verifier.Owns, EffectScripts.ViewOf,
         EffectJournals.Applied;
    ReceiptOwns(events, f, a);
    Verifier.RemedyVerifiedExactly(events, f, a, id, true);
    ReceiptApplied(events, f, a);
    assert ActionOf(a.contract) == a;
  }

  lemma ReceiptApplied(events: seq<Event>, f: EffectJournals.EffectFiles, a: Action)
    requires EffectJournals.EffectInv(events, f) && ValidAction(a) && ReceiptBinds(f, a)
    ensures EffectJournals.Applied(f, a.terms.operation, a.terms.actionId)
  {
    hide EffectJournals.LogsInv, EffectJournals.AttemptInv, EffectJournals.AllBacked,
         EffectJournals.OneActionPerRemedy, EffectJournals.Applied;
    assert EffectJournals.ReceiptBacked(events, f, a.terms.actionId, f.receipts[a.terms.actionId]);
  }

  lemma CheckStored(m: Manifest, w: World, v: Verification)
    requires SystemInv(m, w) && CheckHolds(Committed(w.ledger), w.effects, v) && v.recordId !in w.verifications
    ensures var w' := w.(verifications := w.verifications[v.recordId := v]); SystemInv(m, w') && Evolves(w, w')
  {
    hide LedgerInv, EffectJournals.EffectInv, ReservationsDistinct, CheckHolds, VerdictHolds, Committed;
  }

  /** The event `_record_verification` appends for a check. */
  function RecordCommand(v: Verification, current: Projection, commandId: CommandId): Command
    requires v.RemedyCheck?
  {
    var verified := v.classification == RemedyVerified;
    Command(if verified then VerifiedRemedy else VerificationFailed,
            if verified then AuthoritativeRemedyVerified else AuthoritativeVerificationFailed,
            "read_only_system_verifier", "S2-ACTOR-SYSTEM-VERIFIER", current.revision, current.head, commandId,
            map[ActionId := v.actionId, VerificationId := v.recordId],
            VerificationNoted(v.contract, v.evidence, v.classification, v.milestone, OfVerification(v)), 1)
  }

  /** The event carries what the command said. */
  predicate Carries(e: Event, cmd: Command) {
    && e.body.eventType == cmd.eventType && e.body.links == cmd.links && e.body.decision == cmd.decision
    && e.body.toState == cmd.target && e.body.previous == cmd.expectedHead && e.body.commandDigest == OfCommand(cmd)
  }

  /** An append commits nothing, or one event that carries its command. */
  lemma AppendedEvent(m: Manifest, f: Files, cmd: Command, power: Power)
    requires LedgerInv(m, f) && !IsRevision(cmd.eventType)
    ensures var (g, r) := AppendRun(m, f, cmd, power);
            && LedgerInv(m, g) && Grows(f, g)
            && (Committed(g) == Committed(f)
                || (|Committed(g)| == |Committed(f)| + 1 && Committed(f) <= Committed(g)
                    && Carries(Committed(g)[|Committed(f)|], cmd)))
  {
    hide Fold, LedgerInv, AppendPlan, AppendRun, Grows, Project;
    CrashRecovery.AppendKeeps(m, f, cmd, power);
    if Committed(AppendRun(m, f, cmd, power).0) != Committed(f) {
      AppendAgreesWithReplay(m, f, cmd);
    }
  }

  /** The ledger gained exactly the event of this command. */
  ghost predicate Recorded(f: Files, g: Files, cmd: Command) {
    |Committed(g)| == |Committed(f)| + 1 && Committed(f) <= Committed(g) && Carries(Committed(g)[|Committed(f)|], cmd)
  }

  /** What an ordinary event changes in the projection: the state, and the objects it links. */
  predicate MovedBy(p: Projection, cmd: Command, q: Projection) {
    && q.state == cmd.target && q.active == p.active + ObjectLinks(cmd.links)
    && q.revision == p.revision && q.invalidated == p.invalidated && q.sequence == p.sequence + 1
  }

  /** An append against the head it has just read either fails or records its event, whatever its command ID. */
  lemma CurrentAppendRecords(m: Manifest, f: Files, cmd: Command, power: Power)
    requires LedgerInv(m, f) && !IsRevision(cmd.eventType)
    requires Current(m, f).Ok? && Current(m, f).value.head == cmd.expectedHead
    ensures var (g, r) := AppendRun(m, f, cmd, power);
            && (r.Ok? ==> Recorded(f, g, cmd) && Current(m, g) == r && MovedBy(Current(m, f).value, cmd, r.value))
            && (Committed(g) == Committed(f) || Recorded(f, g, cmd))
  {
    hide Fold, LedgerInv, AppendPlan, CommitRun, Grows;
    AppendedEvent(m, f, cmd, power);
    CrashRecovery.AppendKeeps(m, f, cmd, power);
    CurrentCommandIsNew(m, f, cmd);
    ReadableIffTidy(m, f);
    var plan := AppendPlan(m, f, cmd);
    if plan.Ok? {
      var (g, r) := AppendRun(m, f, cmd, power);
      AppendAgreesWithReplay(m, f, cmd);
      Workspace.NotFrozenWhenAppending(m, f, cmd);
      CommitKeeps(m, f, plan.value.event, power);
      ReadableIffTidy(m, g);
      CommittedReplays(m, g);
    }
  }

  /** Recording a stored check keeps the system invariant, under every crash. */
  lemma RecordKeeps(m: Manifest, w: World, id: string, current: Projection, commandId: CommandId, power: Power)
    requires SystemInv(m, w) && id in w.verifications && w.verifications[id].RemedyCheck?
    ensures var g := AppendRun(m, w.ledger, RecordCommand(w.verifications[id], current, commandId), power).0;
            SystemInv(m, w.(ledger := g)) && Grows(w.ledger, g)
  {
    hide LedgerInv, EffectJournals.EffectInv, Committed, Verifier.Owns, Verifier.EvidenceStands, AppendRun, Grows;
    var v := w.verifications[id];
    var cmd := RecordCommand(v, current, commandId);
    var g := AppendRun(m, w.ledger, cmd, power).0;
    AppendedEvent(m, w.ledger, cmd, power);
    GrowsIsPrefix(w.ledger, g);
    var events, more := Committed(w.ledger), Committed(g);
    if more != events {
      assert more == events + [more[|events|]];
      OtherEventsKeepDistinct(events, more[|events|]);
      assert CheckHolds(events, w.effects, v);
      OwnerReserved(events, ActionOf(v.contract));
      ReservedEarlier(events, more, v.contract);
    }
    hide ReservationsDistinct;
    LedgerMoves(m, w, g);
  }

  lemma GrowsIsPrefix(f: Files, g: Files)
    requires Grows(f, g)
    ensures Committed(f) <= Committed(g)
  {
  }

  lemma ReservedEarlier(events: seq<Event>, more: seq<Event>, contract: Digest)
    requires contract.OfContract? && ReservedBefore(events, |events|, contract) && events <= more && |events| < |more|
    ensures ReservedBefore(more, |events|, contract)
  {
    var j :| 0 <= j < |events| && EffectJournals.Reserves(events[j], contract.terms.actionId)
             && EffectJournals.ReservedContract(events[j]) == Some(contract);
    assert more[j] == events[j];
  }

  // ---- every other guarded ledger call ----

  /** What the use cases outside reservation, revision and verification may append. */
  predicate Guarded(cmd: Command) {
    && cmd.eventType !in {ActionAuthorityReserved, AuthoritativeRemedyVerified, SourceRevisionChanged, CaseReopened}
    && cmd.target !in {ActionReserved, VerifiedRemedy, VerificationFailed}
  }

  /** One more event that is neither a verdict nor a clashing reservation. */
  lemma OneMoreEvent(m: Manifest, w: World, g: Files)
    requires SystemInv(m, w) && LedgerInv(m, g) && Grows(w.ledger, g)
    requires |Committed(g)| > |Committed(w.ledger)|
             ==> var e := Committed(g)[|Committed(w.ledger)|];
                 !IsVerdict(e) && WellEntered(e) && ReservationsDistinct(Committed(g))
    ensures SystemInv(m, w.(ledger := g)) && Evolves(w, w.(ledger := g))
  {
    hide LedgerInv, EffectJournals.EffectInv, Committed, VerdictsHold, ChecksHold, WellEntered, ReservationsDistinct;
    var events, more := Committed(w.ledger), Committed(g);
    if |more| == |events| {
      assert more == events;
    } else {
      assert more == events + [more[|events|]];
    }
    LedgerMoves(m, w, g);
  }

  lemma GuardedAppendKeeps(m: Manifest, w: World, cmd: Command, power: Power)
    requires SystemInv(m, w) && Guarded(cmd)
    ensures var w' := w.(ledger := AppendRun(m, w.ledger, cmd, power).0); SystemInv(m, w') && Evolves(w, w')
  {
    hide SystemInv, LedgerInv, Committed, AppendRun, ReservationsDistinct, Evolves;
    SystemParts(m, w);
    var g := AppendRun(m, w.ledger, cmd, power).0;
    AppendedEvent(m, w.ledger, cmd, power);
    var events, more := Committed(w.ledger), Committed(g);
    if more != events {
      assert more == events + [more[|events|]];
      OtherEventsKeepDistinct(events, more[|events|]);
    }
    OneMoreEvent(m, w, g);
  }

  lemma SystemParts(m: Manifest, w: World)
    requires SystemInv(m, w)
    ensures LedgerInv(m, w.ledger) && EffectJournals.EffectInv(Committed(w.ledger), w.effects)
    ensures ReservationsDistinct(Committed(w.ledger)) && AllWellEntered(Committed(w.ledger))
  {
  }

  lemma ReserveCallKeeps(m: Manifest, w: World, a: Action, authority: Authority, commandId: CommandId, power: Power)
    requires SystemInv(m, w)
    ensures var w' := w.(ledger := ReserveRun(m, w.ledger, a, authority, commandId, power).0);
            SystemInv(m, w') && Evolves(w, w')
  {
    hide SystemInv, LedgerInv, Committed, CommitRun, ReservePlan, ReservationsDistinct, Evolves;
    SystemParts(m, w);
    Workspace.ReserveKeeps(m, w.ledger, a, authority, commandId, power);
    OneMoreEvent(m, w, ReserveRun(m, w.ledger, a, authority, commandId, power).0);
  }

  /** A revision under the conditions its writer leaves to the caller. */
  lemma RevisionCallKeeps(m: Manifest, w: World, plan: Result<RevisionPlan>, power: Power)
    requires SystemInv(m, w)
    requires plan.Ok? ==> var g := RevisionRun(m, w.ledger, plan, power).0;
                          && LedgerInv(m, g) && Grows(w.ledger, g)
                          && (Committed(g) == Committed(w.ledger)
                              || Committed(g) == Committed(w.ledger) + [plan.value.event])
                          && IsRevision(plan.value.event.body.eventType)
                          && plan.value.event.body.toState == EvidenceBlocked
    ensures var w' := w.(ledger := RevisionRun(m, w.ledger, plan, power).0); SystemInv(m, w') && Evolves(w, w')
  {
    hide SystemInv, LedgerInv, Committed, CommitRun, ReservationsDistinct, Evolves, Grows;
    SystemParts(m, w);
    CrashRecovery.GrowsFromItself(w.ledger);
    if plan.Ok? {
      OtherEventsKeepDistinct(Committed(w.ledger), plan.value.event);
    }
    OneMoreEvent(m, w, RevisionRun(m, w.ledger, plan, power).0);
  }

  /** A trace event stays where the run was. */
  lemma TraceStaysPut(m: Manifest, f: Files, g: Files)
    requires LedgerInv(m, g) && Grows(f, g) && Committed(f) != Committed(g) && Committed(f) != []
    requires CrashRecovery.IsTrace(Committed(g)[|Committed(g)| - 1].body.eventType)
    ensures var e := Committed(g)[|Committed(f)|];
            Committed(g) == Committed(f) + [e] && e.body.toState == Committed(f)[|Committed(f)| - 1].body.toState
            && e.body.fromState == Some(e.body.toState) && CrashRecovery.IsTrace(e.body.eventType)
  {
    hide LedgerInv, Committed, Fold;
    CommittedReplays(m, g);
    WorkflowPaths.LastStep(m, g.snapshots, Committed(g));
  }

  lemma RecoveryCallKeeps(m: Manifest, w: World, power: Power)
    requires SystemInv(m, w)
    ensures var w' := w.(ledger := RecoverRun(m, w.ledger, power).0); SystemInv(m, w') && Evolves(w, w')
  {
    hide SystemInv, LedgerInv, Committed, RecoverRun, ReservationsDistinct, Evolves, CrashRecovery.TailOf,
         CrashRecovery.Traces, Tidy;
    SystemParts(m, w);
    var (g, r) := RecoverRun(m, w.ledger, power);
    CrashRecovery.RecoveryKeeps(m, w.ledger, power);
    var events, more := Committed(w.ledger), Committed(g);
    if events == [] {
      NothingToRecover(m, w.ledger, power);
    } else if more != events {
      TraceStaysPut(m, w.ledger, g);
      OtherEventsKeepDistinct(events, more[|events|]);
      assert WellEntered(events[|events| - 1]);
    }
    OneMoreEvent(m, w, g);
  }

  lemma NothingToRecover(m: Manifest, f: Files, power: Power)
    requires LedgerInv(m, f) && Committed(f) == []
    ensures RecoverRun(m, f, power).0 == f
  {
    hide LedgerInv, RecoverPlan, Committed;
    CrashRecovery.RecoveryNeedsPrefix(m, f);
  }

  lemma FreezeKeeps(m: Manifest, w: World, power: Power)
    requires SystemInv(m, w)
    ensures var w' := w.(ledger := FreezeRun(m, w.ledger, power).0); SystemInv(m, w') && Evolves(w, w')
  {
    hide SystemInv, Project, Evolves, Fold, ReadEvents;
    SystemParts(m, w);
    var g := FreezeRun(m, w.ledger, power).0;
    assert LedgerInv(m, g) && Committed(g) == Committed(w.ledger);
    OneMoreEvent(m, w, g);
  }
}
