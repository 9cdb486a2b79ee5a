/** The legal workflow states and the meaning of one event on them. */
module Workflow {
  import opened Results

  datatype WorkflowState =
    | Received
    | Deduplicated
    | EvidenceBlocked
    | ContextReady
    | RecommendationReady
    | ControlStopped
    | AwaitingChoice
    | AwaitingApproval
    | ActionPrepared
    | ActionReserved
    | ActionPending
    | ActionRecovery
    | Verifying
    | VerificationFailed
    | VerifiedRemedy
    | CommunicationReady
    | Closed
    | Reopened

  /** The event types some rule mentions; every other type is `Other`. */
  datatype EventType =
    | CaseReceived
    | RecommendationRecorded
    | ControlStopApplied
    | CustomerChoiceRequired
    | AuthorityDecisionRequired
    | ActionAuthorityReserved
    | ActionEffectStarted
    | ActionEffectOutcomeUnknown
    | AdapterReceiptRecorded
    | AuthoritativeRemedyVerified
    | AuthoritativeVerificationFailed
    | VerifiedWaitCondition
    | VerifiedNoNewAction
    | VerifiedCommunicationCreated
    | CommunicationRecorded
    | RecoveryWorkflowClosed
    | SourceRevisionChanged
    | CaseReopened
    | PartialTailRecovered
    | UncommittedEventRecovered
    | WorkspaceCheckpointed
    | Other(name: string)

  predicate LegalEdge(source: Option<WorkflowState>, target: WorkflowState) {
    match source
    case None => target == Received
    case Some(Received) => target == Deduplicated
    case Some(Deduplicated) => target in {EvidenceBlocked, ContextReady}
    case Some(EvidenceBlocked) => target == ContextReady
    case Some(ContextReady) => target == RecommendationReady
    case Some(RecommendationReady) =>
      target in {ControlStopped, AwaitingChoice, AwaitingApproval, ActionPrepared, CommunicationReady}
    case Some(AwaitingChoice) => target in {RecommendationReady, ControlStopped}
    case Some(AwaitingApproval) => target in {ActionPrepared, ControlStopped}
    case Some(ActionPrepared) => target == ActionReserved
    case Some(ActionReserved) => target == ActionPending
    case Some(ActionPending) => target in {ActionRecovery, Verifying}
    case Some(ActionRecovery) => target == Verifying
    case Some(Verifying) => target in {VerificationFailed, VerifiedRemedy}
    case Some(VerificationFailed) => target == ActionRecovery
    case Some(VerifiedRemedy) => target == CommunicationReady
    case Some(CommunicationReady) => target == Closed
    case Some(Closed) => false
    case Some(Reopened) => false
    case Some(ControlStopped) => false
  }

  predicate IsDirectNoAction(t: EventType) {
    t in {VerifiedWaitCondition, VerifiedNoNewAction}
  }

  predicate IsNonTransition(t: EventType) {
    t in {CommunicationRecorded, PartialTailRecovered, UncommittedEventRecovered, WorkspaceCheckpointed}
  }

  predicate IsRevision(t: EventType) {
    t in {SourceRevisionChanged, CaseReopened}
  }

  /** A material revision may interrupt every state but these four. */
  predicate CanBeRevised(s: WorkflowState) {
    s !in {Received, ControlStopped, Closed, Reopened}
  }

  function Transition(source: Option<WorkflowState>, target: WorkflowState, t: EventType, actionCount: int)
    : Result<WorkflowState>
  {
    if !LegalEdge(source, target) then
      Err(Illegal)
    else if source == Some(RecommendationReady) && target == CommunicationReady
            && (!IsDirectNoAction(t) || actionCount != 0) then
      Err(Illegal)
    else
      Ok(target)
  }

  function RevisionTarget(source: WorkflowState): Result<WorkflowState> {
    if CanBeRevised(source) then Ok(EvidenceBlocked) else Err(Illegal)
  }

  /** The state after a durable event, or a refusal of the whole ledger. */
  function ApplyEvent(source: Option<WorkflowState>, t: EventType, target: WorkflowState, actionCount: int)
    : Result<WorkflowState>
  {
    if IsNonTransition(t) then
      if source == Some(target) then Ok(target) else Err(Illegal)
    else if t == SourceRevisionChanged then
      match source
      case None => Err(Illegal)
      case Some(s) =>
        var expected :- RevisionTarget(s);
        if target == expected then Ok(target) else Err(Illegal)
    else if t == CaseReopened then
      if source == Some(Closed) && target == EvidenceBlocked then Ok(target) else Err(Illegal)
    else
      Transition(source, target, t, actionCount)
  }

  // ---- the same moves, listed by where they lead ----

  /** The states an ordinary event may have left to enter this one. */
  predicate EnteredFrom(target: WorkflowState, source: Option<WorkflowState>) {
    match target
    case Received => source == None
    case Deduplicated => source == Some(Received)
    case EvidenceBlocked => source == Some(Deduplicated)
    case ContextReady => source == Some(Deduplicated) || source == Some(EvidenceBlocked)
    case RecommendationReady => source == Some(ContextReady) || source == Some(AwaitingChoice)
    case ControlStopped =>
      source == Some(RecommendationReady) || source == Some(AwaitingChoice) || source == Some(AwaitingApproval)
    case AwaitingChoice => source == Some(RecommendationReady)
    case AwaitingApproval => source == Some(RecommendationReady)
    case ActionPrepared => source == Some(RecommendationReady) || source == Some(AwaitingApproval)
    case ActionReserved => source == Some(ActionPrepared)
    case ActionPending => source == Some(ActionReserved)
    case ActionRecovery => source == Some(ActionPending) || source == Some(VerificationFailed)
    case Verifying => source == Some(ActionPending) || source == Some(ActionRecovery)
    case VerificationFailed => source == Some(Verifying)
    case VerifiedRemedy => source == Some(Verifying)
    case CommunicationReady => source == Some(VerifiedRemedy) || source == Some(RecommendationReady)
    case Closed => source == Some(CommunicationReady)
    case Reopened => false
  }

  /** An ordinary move; past verification only a verified zero-action condition leads to a message. */
  predicate OrdinaryMove(source: Option<WorkflowState>, t: EventType, target: WorkflowState, actionCount: int) {
    && EnteredFrom(target, source)
    && (target == CommunicationReady && source != Some(VerifiedRemedy)
        ==> (t == VerifiedWaitCondition || t == VerifiedNoNewAction) && actionCount == 0)
  }

  /** The only moves of a ledger: bookkeeping stays put, a revision blocks on evidence, the rest are ordinary. */
  predicate LawfulMove(source: Option<WorkflowState>, t: EventType, target: WorkflowState, actionCount: int) {
    match t
    case CommunicationRecorded => source == Some(target)
    case PartialTailRecovered => source == Some(target)
    case UncommittedEventRecovered => source == Some(target)
    case WorkspaceCheckpointed => source == Some(target)
    case SourceRevisionChanged =>
      && target == EvidenceBlocked && source.Some?
      && source.value != Received && source.value != ControlStopped && source.value != Closed
      && source.value != Reopened
    case CaseReopened => target == EvidenceBlocked && source == Some(Closed)
    case _ => OrdinaryMove(source, t, target, actionCount)
  }

  /** Replay takes exactly the lawful moves. */
  lemma ReplayTakesLawfulMoves(source: Option<WorkflowState>, t: EventType, target: WorkflowState, actionCount: int)
    ensures ApplyEvent(source, t, target, actionCount) == Ok(target) <==> LawfulMove(source, t, target, actionCount)
    ensures ApplyEvent(source, t, target, actionCount).Ok? <==> LawfulMove(source, t, target, actionCount)
  {
    OrdinaryMovesAreLegal(source, t, target, actionCount);
    hide Transition, OrdinaryMove;
  }

  lemma OrdinaryMovesAreLegal(source: Option<WorkflowState>, t: EventType, target: WorkflowState, actionCount: int)
    ensures Transition(source, target, t, actionCount)
            == if OrdinaryMove(source, t, target, actionCount) then Ok(target) else Err(Illegal)
  {
  }
}
