/** The frozen decision matrix over derived facts, and the comparison of a provider's proposal with it. */
module Policy {
  import opened Results

  datatype Choice = Wait | Reship | Refund
  datatype SourceName = Oms | Wms | Carrier | Inventory | Payment | Crm | PolicySource

  datatype ActionCode =
    | ControlStop
    | NoNewAction
    | RecoverAction
    | BlockOnEvidence
    | AwaitChoice
    | WaitVerifiedEta
    | DoReship
    | DoRefund

  datatype Route =
    | SpecialistStop
    | DirectNoAction
    | RecoveryReconciliation
    | EvidenceReview
    | ChoiceRoute
    | FinanceApproval
    | WorkflowOwnerApproval
    | DelegatedDecision

  datatype MessageFact =
    | WaitEstimateQualified
    | ReshipProposed
    | RefundProposed
    | PriorRemedyConfirmed
    | EvidenceUnresolved
    | ActionStatusUnresolved
    | SpecialistReviewRequired
    | CustomerChoiceMissing
    | DuplicateSignalSuppressed
    | NoEligibleQuantityRemains
    | CompletionClaim(code: string)  // the five prohibited completion facts
    | UnknownFact(code: string)

  /** The permitted facts; `choice` carries an out-of-vocabulary customer choice as None inside Some. */
  datatype Facts = Facts(
    policyIsFrozenOne: bool,
    riskFlags: seq<string>,
    activeChargeback: bool,
    priorRemedyCoversQuantity: bool,
    unresolvedAction: bool,
    sourceConflict: bool,
    duplicateSignal: bool,
    choice: Option<Option<Choice>>,
    current: set<SourceName>,
    reliableEta: bool,
    remaining: int,
    replacementStock: int,
    exposure: int,
    orderValue: int,
    delegatedMax: int,
    ownerMax: int,
    financeOrder: int)

  datatype PolicyDecision = PolicyDecision(
    action: ActionCode,
    route: Route,
    messageFacts: set<MessageFact>,
    missing: seq<SourceName>,
    consequential: bool)

  datatype Candidate = Candidate(action: ActionCode, route: Route, messageFacts: seq<MessageFact>)

  datatype Rejection = ActionDisagrees | RouteDisagrees | MessageUnsupported | ProviderFailed(status: string)

  datatype Governed = Governed(decision: PolicyDecision, accepted: bool, rejections: seq<Rejection>)

  function ActionFor(choice: Choice): ActionCode {
    match choice
    case Wait => WaitVerifiedEta
    case Reship => DoReship
    case Refund => DoRefund
  }

  function RequiredSources(choice: Choice): seq<SourceName> {
    match choice
    case Wait => [Carrier, Crm, PolicySource]
    case Reship => [Oms, Wms, Carrier, Inventory, Crm, PolicySource]
    case Refund => [Oms, Wms, Carrier, Payment, Crm, PolicySource]
  }

  function Missing(required: seq<SourceName>, current: set<SourceName>): seq<SourceName> {
    if required == [] then []
    else (if required[0] in current then [] else [required[0]]) + Missing(required[1..], current)
  }

  function Blocked(missing: seq<SourceName>): PolicyDecision {
    PolicyDecision(BlockOnEvidence, EvidenceReview, {EvidenceUnresolved}, missing, false)
  }

  function NoAction(fact: MessageFact): PolicyDecision {
    PolicyDecision(NoNewAction, DirectNoAction, {fact}, [], false)
  }

  /** First match wins. */
  function Decide(f: Facts): Result<PolicyDecision> {
    if !f.policyIsFrozenOne then
      Err(Control)
    else if f.activeChargeback || f.riskFlags != [] then
      Ok(PolicyDecision(ControlStop, SpecialistStop, {SpecialistReviewRequired}, [], false))
    else if f.priorRemedyCoversQuantity then
      Ok(NoAction(PriorRemedyConfirmed))
    else if f.unresolvedAction then
      Ok(PolicyDecision(RecoverAction, RecoveryReconciliation, {ActionStatusUnresolved}, [], false))
    else if f.sourceConflict then
      Ok(Blocked([]))
    else if f.duplicateSignal then
      Ok(NoAction(DuplicateSignalSuppressed))
    else
      match f.choice
      case None => Ok(PolicyDecision(AwaitChoice, ChoiceRoute, {CustomerChoiceMissing}, [], false))
      case Some(None) => Err(Control)
      case Some(Some(choice)) => DecideChoice(f, choice)
  }

  function DecideChoice(f: Facts, choice: Choice): Result<PolicyDecision> {
    var missing := Missing(RequiredSources(choice), f.current);
    if missing != [] then
      Ok(Blocked(missing))
    else if choice == Wait then
      Ok(if f.reliableEta
         then PolicyDecision(WaitVerifiedEta, DirectNoAction, {WaitEstimateQualified}, [], false)
         else Blocked([]))
    else if f.remaining < 0 then
      Err(Control)
    else if f.remaining == 0 then
      Ok(NoAction(NoEligibleQuantityRemains))
    else if choice == Reship && f.replacementStock < 0 then
      Err(Control)
    else if choice == Reship && f.replacementStock < f.remaining then
      Ok(Blocked([]))
    else if f.exposure < 0 || f.orderValue < 0 then
      Err(Control)
    else if f.delegatedMax < 1 || f.ownerMax < 1 || f.financeOrder < 1
            || !(f.delegatedMax < f.ownerMax <= f.financeOrder) then
      Err(Control)
    else
      var route := if f.exposure > f.ownerMax || f.orderValue > f.financeOrder then FinanceApproval
                   else if f.exposure > f.delegatedMax then WorkflowOwnerApproval
                   else DelegatedDecision;
      Ok(PolicyDecision(ActionFor(choice), route,
                        {if choice == Reship then ReshipProposed else RefundProposed}, [], true))
  }

  predicate Supported(decision: PolicyDecision, facts: seq<MessageFact>) {
    forall i :: 0 <= i < |facts| ==> facts[i] in decision.messageFacts
  }

  function Govern(f: Facts, c: Candidate): Result<Governed> {
    var decision :- Decide(f);
    if exists i :: 0 <= i < |c.messageFacts| && (c.messageFacts[i].UnknownFact?
                                                 || c.messageFacts[i].CompletionClaim?) then
      Err(Control)
    else
      var rejections := (if c.action != decision.action then [ActionDisagrees] else [])
                      + (if c.route != decision.route then [RouteDisagrees] else [])
                      + (if !Supported(decision, c.messageFacts) then [MessageUnsupported] else []);
      Ok(Governed(decision, rejections == [], rejections))
  }

  // ---- the matrix, read by its outcomes ----

  /** Nothing stops the case before the customer's choice is looked at. */
  predicate Open(f: Facts) {
    && f.policyIsFrozenOne && !f.activeChargeback && f.riskFlags == [] && !f.priorRemedyCoversQuantity
    && !f.unresolvedAction && !f.sourceConflict && !f.duplicateSignal
  }

  predicate Chose(f: Facts, choice: Choice) {
    f.choice == Some(Some(choice))
  }

  predicate WaitIsFresh(f: Facts) {
    Carrier in f.current && Crm in f.current && PolicySource in f.current
  }

  predicate ReshipIsFresh(f: Facts) {
    Oms in f.current && Wms in f.current && Inventory in f.current && WaitIsFresh(f)
  }

  predicate RefundIsFresh(f: Facts) {
    Oms in f.current && Wms in f.current && Payment in f.current && WaitIsFresh(f)
  }

  /** A money-moving choice whose sources are all fresh. */
  predicate MayMove(f: Facts) {
    Open(f) && ((Chose(f, Reship) && ReshipIsFresh(f)) || (Chose(f, Refund) && RefundIsFresh(f)))
  }

  predicate Stocked(f: Facts) {
    Chose(f, Reship) ==> f.remaining <= f.replacementStock
  }

  predicate SaneAmounts(f: Facts) {
    f.exposure >= 0 && f.orderValue >= 0 && 1 <= f.delegatedMax < f.ownerMax <= f.financeOrder
  }

  /**
   * Every stop is passed: no risk flag, no covering remedy, no unresolved, conflicting or duplicate case, every source
   * the choice needs fresh, a positive eligible quantity and, for a reship, the stock for it, and sane thresholds.
   */
  predicate Cleared(f: Facts) {
    MayMove(f) && 0 < f.remaining && Stocked(f) && SaneAmounts(f)
  }

  /** The decision, spelled out. */
  predicate Decides(f: Facts, action: ActionCode, route: Route, facts: set<MessageFact>, consequential: bool) {
    && Decide(f).Ok? && Decide(f).value.action == action && Decide(f).value.route == route
    && Decide(f).value.messageFacts == facts && Decide(f).value.consequential == consequential
  }

  lemma FreshnessDecides(f: Facts)
    ensures f.choice.Some? && f.choice.value.Some?
            ==> (Missing(RequiredSources(f.choice.value.value), f.current) == []
                 <==> match f.choice.value.value
                      case Wait => WaitIsFresh(f)
                      case Reship => ReshipIsFresh(f)
                      case Refund => RefundIsFresh(f))
  {
    if f.choice.Some? && f.choice.value.Some? {
      var required := RequiredSources(f.choice.value.value);
      NothingMissing(required, f.current);
      match f.choice.value.value
      case Wait =>
        assert required == [Carrier, Crm, PolicySource];
      case Reship =>
        assert required == [Oms, Wms, Carrier, Inventory, Crm, PolicySource];
      case Refund =>
        assert required == [Oms, Wms, Carrier, Payment, Crm, PolicySource];
    }
  }

  /** A risk stop outranks everything else under the frozen policy, and nothing else leads to a specialist stop. */
  lemma RiskStopsFirst(f: Facts)
    requires f.policyIsFrozenOne
    ensures f.activeChargeback || f.riskFlags != []
            <==> Decides(f, ControlStop, SpecialistStop, {SpecialistReviewRequired}, false)
    ensures Decide(f).Ok? && (Decide(f).value.action == ControlStop || Decide(f).value.route == SpecialistStop)
            <==> f.activeChargeback || f.riskFlags != []
  {
    hide Missing;
  }

  /** No new action: a covering remedy, a duplicate signal, or no eligible quantity left, in this order of rank. */
  lemma NoNewActionExactly(f: Facts)
    requires f.policyIsFrozenOne && !f.activeChargeback && f.riskFlags == []
    ensures Decides(f, NoNewAction, DirectNoAction, {PriorRemedyConfirmed}, false) <==> f.priorRemedyCoversQuantity
    ensures Decides(f, NoNewAction, DirectNoAction, {DuplicateSignalSuppressed}, false)
            <==> && !f.priorRemedyCoversQuantity && !f.unresolvedAction && !f.sourceConflict && f.duplicateSignal
    ensures Decides(f, NoNewAction, DirectNoAction, {NoEligibleQuantityRemains}, false)
            <==> MayMove(f) && f.remaining == 0
    ensures Decide(f).Ok? && Decide(f).value.action == NoNewAction
            ==> || Decide(f).value.messageFacts == {PriorRemedyConfirmed}
                || Decide(f).value.messageFacts == {DuplicateSignalSuppressed}
                || Decide(f).value.messageFacts == {NoEligibleQuantityRemains}
  {
    FreshnessDecides(f);
    FactsDiffer();
    hide Missing, RequiredSources;
  }

  lemma FactsDiffer()
    ensures {PriorRemedyConfirmed} != {DuplicateSignalSuppressed}
    ensures {DuplicateSignalSuppressed} != {NoEligibleQuantityRemains}
    ensures {PriorRemedyConfirmed} != {NoEligibleQuantityRemains}
  {
    assert PriorRemedyConfirmed !in {DuplicateSignalSuppressed} && PriorRemedyConfirmed !in {NoEligibleQuantityRemains};
    assert DuplicateSignalSuppressed !in {NoEligibleQuantityRemains};
  }

  /** An unresolved earlier action is reconciled before anything new, once no risk and no covering remedy stands. */
  lemma RecoverActionExactly(f: Facts)
    requires f.policyIsFrozenOne
    ensures Decides(f, RecoverAction, RecoveryReconciliation, {ActionStatusUnresolved}, false)
            <==> !f.activeChargeback && f.riskFlags == [] && !f.priorRemedyCoversQuantity && f.unresolvedAction
    ensures Decide(f).Ok? && Decide(f).value.action == RecoverAction
            ==> Decides(f, RecoverAction, RecoveryReconciliation, {ActionStatusUnresolved}, false)
  {
    hide Missing;
  }

  /** A conflict, a stale source the choice needs, no reliable estimate for a wait, or too little stock for a reship. */
  predicate LacksEvidence(f: Facts) {
    || (!f.priorRemedyCoversQuantity && !f.unresolvedAction && f.sourceConflict)
    || (Open(f) && Chose(f, Wait) && !(WaitIsFresh(f) && f.reliableEta))
    || (Open(f) && Chose(f, Reship) && !ReshipIsFresh(f))
    || (Open(f) && Chose(f, Refund) && !RefundIsFresh(f))
    || (Open(f) && Chose(f, Reship) && f.remaining > 0 && 0 <= f.replacementStock < f.remaining)
  }

  lemma EvidenceBlocksExactly(f: Facts)
    requires f.policyIsFrozenOne && !f.activeChargeback && f.riskFlags == []
    ensures Decides(f, BlockOnEvidence, EvidenceReview, {EvidenceUnresolved}, false) <==> LacksEvidence(f)
    ensures Decide(f).Ok? && Decide(f).value.action == BlockOnEvidence
            ==> Decides(f, BlockOnEvidence, EvidenceReview, {EvidenceUnresolved}, false)
  {
    FreshnessDecides(f);
    hide Missing, RequiredSources;
  }

  /** The customer is asked exactly when nothing stands in the way and no choice is on file. */
  lemma AwaitChoiceExactly(f: Facts)
    requires f.policyIsFrozenOne
    ensures Decides(f, AwaitChoice, ChoiceRoute, {CustomerChoiceMissing}, false) <==> Open(f) && f.choice.None?
    ensures Decide(f).Ok? && Decide(f).value.action == AwaitChoice
            ==> Decides(f, AwaitChoice, ChoiceRoute, {CustomerChoiceMissing}, false)
  {
    hide Missing;
  }

  /** Waiting is decided exactly on a fresh carrier, customer and policy source and a reliable estimate. */
  lemma WaitExactly(f: Facts)
    requires f.policyIsFrozenOne
    ensures Decides(f, WaitVerifiedEta, DirectNoAction, {WaitEstimateQualified}, false)
            <==> Open(f) && Chose(f, Wait) && WaitIsFresh(f) && f.reliableEta
    ensures Decide(f).Ok? && Decide(f).value.action == WaitVerifiedEta
            ==> Decides(f, WaitVerifiedEta, DirectNoAction, {WaitEstimateQualified}, false)
  {
    FreshnessDecides(f);
    hide Missing, RequiredSources;
  }

  /** A money-moving decision is reached exactly when every stop is passed; its route grows with what is at stake. */
  lemma ConsequentialExactlyWhenCleared(f: Facts)
    ensures Decide(f).Ok? && Decide(f).value.consequential <==> Cleared(f)
    ensures Cleared(f) && Chose(f, Refund)
            ==> Decide(f).value.action == DoRefund && Decide(f).value.messageFacts == {RefundProposed}
    ensures Cleared(f) && Chose(f, Reship)
            ==> Decide(f).value.action == DoReship && Decide(f).value.messageFacts == {ReshipProposed}
    ensures Cleared(f) ==> (Decide(f).value.route == DelegatedDecision
                            <==> f.exposure <= f.delegatedMax && f.orderValue <= f.financeOrder)
    ensures Cleared(f) ==> (Decide(f).value.route == FinanceApproval
                            <==> f.exposure > f.ownerMax || f.orderValue > f.financeOrder)
    ensures Cleared(f) ==> Decide(f).value.route in {DelegatedDecision, WorkflowOwnerApproval, FinanceApproval}
  {
    FreshnessDecides(f);
    hide Missing, RequiredSources;
  }

  /** Policy refuses to decide on anything but the frozen version, a choice it does not know, or insane numbers. */
  lemma RefusesExactly(f: Facts)
    ensures Decide(f).Err?
            <==> || !f.policyIsFrozenOne
                 || (Open(f) && f.choice == Some(None))
                 || (MayMove(f) && f.remaining < 0)
                 || (MayMove(f) && Chose(f, Reship) && f.remaining > 0 && f.replacementStock < 0)
                 || (MayMove(f) && f.remaining > 0 && Stocked(f) && !SaneAmounts(f))
    ensures Decide(f).Err? ==> Decide(f) == Err(Control)
  {
    FreshnessDecides(f);
    hide Missing, RequiredSources;
  }

  predicate NeededFor(choice: Choice, s: SourceName) {
    match choice
    case Wait => s == Carrier || s == Crm || s == PolicySource
    case Reship => s != Payment
    case Refund => s != Inventory
  }

  lemma RequiredIsNeeded(choice: Choice, s: SourceName)
    ensures s in RequiredSources(choice) <==> NeededFor(choice, s)
  {
    match choice
    case Wait => assert RequiredSources(choice) == [Carrier, Crm, PolicySource];
    case Reship => assert RequiredSources(choice) == [Oms, Wms, Carrier, Inventory, Crm, PolicySource];
    case Refund => assert RequiredSources(choice) == [Oms, Wms, Carrier, Payment, Crm, PolicySource];
  }

  /** A decision names as missing exactly the sources the choice needs and lacks, and only an open case names any. */
  lemma MissingAreNamed(f: Facts, s: SourceName)
    requires Decide(f).Ok?
    ensures s in Decide(f).value.missing
            <==> && Open(f) && f.choice.Some? && f.choice.value.Some?
                 && NeededFor(f.choice.value.value, s) && s !in f.current
  {
    if f.choice.Some? && f.choice.value.Some? {
      MissingIsNeeded(RequiredSources(f.choice.value.value), f.current, s);
      RequiredIsNeeded(f.choice.value.value, s);
    }
    hide Missing, RequiredSources, NeededFor;
  }

  lemma {:induction false} MissingIsNeeded(required: seq<SourceName>, current: set<SourceName>, s: SourceName)
    ensures s in Missing(required, current) <==> s in required && s !in current
  {
    if required != [] {
      MissingIsNeeded(required[1..], current, s);
      assert required == [required[0]] + required[1..];
    }
  }

  /** A missing list is empty exactly when every required source is fresh. */
  lemma {:induction false} NothingMissing(required: seq<SourceName>, current: set<SourceName>)
    ensures Missing(required, current) == [] <==> forall s :: s in required ==> s in current
  {
    if required != [] {
      NothingMissing(required[1..], current);
      assert required == [required[0]] + required[1..];
    }
  }

  /**
   * The proposal never moves the decision, and it is accepted exactly when it agrees with it in full; every
   * disagreement is named.
   */
  lemma GovernedByPolicy(f: Facts, c: Candidate)
    requires Govern(f, c).Ok?
    ensures Decide(f) == Ok(Govern(f, c).value.decision)
    ensures Govern(f, c).value.accepted
            <==> c.action == Decide(f).value.action && c.route == Decide(f).value.route
                 && Supported(Decide(f).value, c.messageFacts)
    ensures ActionDisagrees in Govern(f, c).value.rejections <==> c.action != Decide(f).value.action
    ensures RouteDisagrees in Govern(f, c).value.rejections <==> c.route != Decide(f).value.route
    ensures MessageUnsupported in Govern(f, c).value.rejections
            <==> exists i :: 0 <= i < |c.messageFacts| && c.messageFacts[i] !in Decide(f).value.messageFacts
  {
    hide Decide;
  }

  /** A proposal that claims completion, or a fact outside the vocabulary, is refused whatever else it says. */
  lemma CompletionClaimsAreRefused(f: Facts, c: Candidate)
    ensures Govern(f, c).Err?
            <==> Decide(f).Err? || exists i :: 0 <= i < |c.messageFacts| && (c.messageFacts[i].CompletionClaim?
                                                                              || c.messageFacts[i].UnknownFact?)
  {
    hide Decide;
  }

  /** When the two direct decisions are reached, in terms of the facts. */
  lemma WaitAndNothingExactly(f: Facts)
    ensures Decide(f).Ok? && Decide(f).value.action == WaitVerifiedEta
            <==> Open(f) && Chose(f, Wait) && WaitIsFresh(f) && f.reliableEta
    ensures Decide(f).Ok? && Decide(f).value.action == NoNewAction
            <==> && f.policyIsFrozenOne && !f.activeChargeback && f.riskFlags == []
                 && (|| f.priorRemedyCoversQuantity
                     || (!f.unresolvedAction && !f.sourceConflict && f.duplicateSignal)
                     || (MayMove(f) && f.remaining == 0))
    ensures Decide(f).Ok? && (Decide(f).value.action == WaitVerifiedEta || Decide(f).value.action == NoNewAction)
            <==> Decide(f).Ok? && Decide(f).value.route == DirectNoAction
  {
    FreshnessDecides(f);
    hide Missing, RequiredSources;
  }
}
