/** Exact consequential-action contracts. */
module Actions {
  import opened Results
  import opened Records

  /** The sources an operation has to reach, in the order the adapter writes them. */
  function RequiredSources(operation: Operation): seq<Source> {
    match operation
    case Refund => [PAYMENT]
    case Reship => [OMS, INVENTORY, WMS]
  }

  function PayloadDigest(t: ActionTerms): Digest {
    OfPayload(t.amountCents, t.caseId, t.caseRevision, t.currency, t.businessKey, t.quantity, t.operation, t.target)
  }

  predicate CanonicalTerms(t: ActionTerms) {
    && t.caseRevision > 0 && t.quantity > 0 && t.amountCents > 0 && t.timeoutMilliseconds > 0
    && |t.currency| == 3
    && t.authorityRoute in {"DELEGATED_DECISION", "WORKFLOW_OWNER_APPROVAL", "FINANCE_APPROVAL"}
  }

  /** What `validate_action_contract` accepts: canonical terms under digests recomputed from them. */
  predicate ValidAction(a: Action) {
    && a.recordId == a.terms.actionId
    && CanonicalTerms(a.terms)
    && a.terms.payload == PayloadDigest(a.terms)
    && a.contract == OfContract(a.terms)
  }

  /** `build_action_contract`: fill in the two digests, or refuse. */
  function Build(t: ActionTerms): (r: Result<Action>)
    ensures r.Ok? <==> && t.caseRevision >= 1 && t.quantity >= 1 && t.amountCents >= 1 && t.timeoutMilliseconds >= 1
                       && |t.currency| == 3
                       && (t.authorityRoute == "DELEGATED_DECISION" || t.authorityRoute == "WORKFLOW_OWNER_APPROVAL"
                           || t.authorityRoute == "FINANCE_APPROVAL")
    ensures r.Ok? ==> ValidAction(r.value) && r.value.terms == t.(payload := r.value.terms.payload)
    ensures r.Ok? ==> r.value.terms.payload == OfPayload(t.amountCents, t.caseId, t.caseRevision, t.currency,
                                                         t.businessKey, t.quantity, t.operation, t.target)
  {
    var filled := t.(payload := PayloadDigest(t));
    var a := Action(t.actionId, filled, OfContract(filled));
    if ValidAction(a) then Ok(a) else Err(Control)
  }

  /**
   * One contract digest names one action, and the authority's payload digest already fixes every field that
   * money or stock depends on.
   */
  lemma ContractBindsAction(a: Action, b: Action)
    requires ValidAction(a) && ValidAction(b)
    ensures a.contract == b.contract <==> a == b
    ensures a.terms.payload == b.terms.payload
            ==> && a.terms.amountCents == b.terms.amountCents && a.terms.quantity == b.terms.quantity
                && a.terms.currency == b.terms.currency && a.terms.operation == b.terms.operation
                && a.terms.caseId == b.terms.caseId && a.terms.caseRevision == b.terms.caseRevision
                && a.terms.businessKey == b.terms.businessKey && a.terms.target == b.terms.target
  {
  }
}
