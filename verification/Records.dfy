/**
 * The durable records: workflow events, source batches, action contracts, source effects, receipts and
 * verifications. A digest is the injective image of the content it was computed from, so two digests are
 * equal exactly when the canonical contents are.
 */
module Records {
  import opened Results
  import opened Workflow
  import Policy

  datatype Digest =
    | External(hex: string)
    | OfEvent(event: EventBody)
    | OfCommand(command: Command)
    | OfBatch(batch: Batch)
    | OfTail(tail: LedgerTail)
    | OfPayload(amountCents: int, caseId: string, caseRevision: int, currency: string, businessKey: string,
                quantity: int, operation: Operation, target: string)
    | OfContract(terms: ActionTerms)
    | OfEffect(effect: Effect)
    | OfAttempt(attempt: Attempt)
    | OfReceipt(receipt: Receipt)
    | OfVerification(verification: Verification)
    | OfCommunication(communication: Communication)

  // ---- the workflow ledger ----

  datatype LinkKey =
    | RecommendationId
    | ApprovalId
    | ActionId
    | VerificationId
    | CommunicationId
    | ClosureId
    | ReceiptId
    | OtherKey(name: string)

  type Links = map<LinkKey, string>

  datatype CommandId = Named(name: string) | RecoverTail(tail: Digest)

  /** Everything a caller's command binds, including the revision and head it was prepared against. */
  datatype Command = Command(
    target: WorkflowState,
    eventType: EventType,
    actorKind: string,
    actorId: string,
    expectedRevision: int,
    expectedHead: Digest,
    commandId: CommandId,
    links: Links,
    decision: Decision,
    actionCount: int)

  /** The `decision_or_effect` object of an event, by the shape its writer gives it. */
  datatype Decision =
    | Plain(note: string)
    | Invalidation(ids: seq<string>)
    | Reopening(ids: seq<string>, preservedClosure: Option<string>, priorRevision: int)
    | Reservation(contract: Digest, payload: Digest, authority: string, route: string, businessKey: string,
                  idempotencyKey: string, operation: Operation)
    | TailRecovery(tail: Digest)
    | Recommended(governed: Policy.Governed, proposal: Option<Policy.Candidate>, status: string)
    | ReceiptNoted(contract: Digest, receipt: Digest, reconciled: bool)
    | VerificationNoted(contract: Digest, evidence: map<Source, seq<Digest>>, classification: Classification,
                        milestone: Milestone, verification: Digest)
    | ConditionNoted(classification: Classification, milestone: Milestone, verification: Digest)
    | CommunicationNoted(classification: Classification, communication: Digest, verification: Digest)
    | ClosureNoted(communication: Digest, verification: Digest)

  datatype EventBody = EventBody(
    sequence: int,
    runId: string,
    caseId: string,
    previous: Digest,
    previousRevision: int,
    revision: int,
    fromState: Option<WorkflowState>,
    toState: WorkflowState,
    eventType: EventType,
    actorKind: string,
    actorId: string,
    actionCount: int,
    commandId: CommandId,
    commandDigest: Digest,
    links: Links,
    decision: Decision,
    occurredAt: string,
    cut: string,
    pin: string,
    snapshot: Digest)

  datatype Event = Event(body: EventBody, digest: Digest)

  datatype LedgerTail = TornBytes(content: string) | WholeEvent(event: Event)

  datatype Batch = Batch(
    recordId: string,
    caseId: string,
    revision: int,
    ledgerHead: Digest,
    cut: string,
    pin: string,
    committedAt: string)

  // ---- actions and their effects ----

  datatype Operation = Refund | Reship

  datatype Source = PAYMENT | OMS | INVENTORY | WMS

  datatype ActionTerms = ActionTerms(
    actionId: string,
    caseId: string,
    caseRevision: int,
    ledgerHead: Digest,
    operation: Operation,
    target: string,
    businessKey: string,
    quantity: int,
    amountCents: int,
    currency: string,
    authorityRoute: string,
    authorityReference: string,
    idempotencyKey: string,
    timeoutMilliseconds: int,
    beforeState: string,
    payload: Digest)

  datatype Action = Action(recordId: string, terms: ActionTerms, contract: Digest)

  datatype Effect = Effect(
    source: Source,
    actionId: string,
    contract: Digest,
    caseId: string,
    caseRevision: int,
    businessKey: string,
    sequence: int,
    quantity: Option<int>,
    amountCents: Option<int>,
    currency: Option<string>,
    refundCommitted: bool,
    replacementCreated: bool,
    replacementOrderId: Option<string>,
    inventoryReserved: bool,
    wmsAccepted: bool,
    stale: bool,
    conflicting: bool)

  datatype AttemptStatus =
    | PartialEffectRequiresRecovery
    | ReconciledCommittedEffect
    | EffectStarted
    | FailedBeforeMutation
    | EffectUnknown
    | SimulatedEffectCommitted

  datatype Attempt = Attempt(
    contract: Digest,
    actionId: string,
    sequence: int,
    idempotencyKey: string,
    reconciled: bool,
    status: AttemptStatus)

  datatype Receipt = Receipt(actionId: string, contract: Digest, operation: Operation, reconciled: bool)

  datatype Classification =
    | RemedyVerified
    | VerificationFailure
    | WaitCondition
    | NoNewActionCondition

  datatype Milestone =
    | RefundCommittedExact
    | RefundMissingOrInexact
    | ReplacementCreatedReservedAccepted
    | ReplacementMissingOrInexact
    | CurrentReliableEta
    | PriorRemedyCoversQuantity

  /** A remedy check re-derived from source effects, or a direct condition backed by cited facts. */
  datatype Verification =
    | RemedyCheck(
        recordId: string,
        actionId: string,
        contract: Digest,
        caseId: string,
        caseRevision: int,
        operation: Operation,
        classification: Classification,
        milestone: Milestone,
        evidence: map<Source, seq<Digest>>,
        receiptPresent: bool)
    | ConditionCheck(
        recordId: string,
        caseId: string,
        caseRevision: int,
        classification: Classification,
        milestone: Milestone,
        citations: seq<string>)

  datatype MessageFact = RefundCompleted | ReplacementMilestone | EtaEstimate | NoNewActionRequired

  datatype Communication = Communication(
    recordId: string,
    caseId: string,
    caseRevision: int,
    classification: Classification,
    milestone: Milestone,
    fact: MessageFact,
    citation: string,
    actionCount: int,
    estimateAt: Option<string>,
    unsent: bool,
    sendCapability: bool)
}
