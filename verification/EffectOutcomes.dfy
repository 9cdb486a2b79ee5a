/**
 * What one adapter call leaves, read off the committed records alone: from which directories it may act, what each
 * injected fault does to it, and what makes it do nothing.
 */
module EffectOutcomes {
  import opened Results
  import opened Records
  import opened Actions
  import opened EffectJournals
  import opened EffectScripts

  // ---- before and after ----

  /** Exactly these sources gained the one record the terms call for; no other source changed. */
  ghost predicate Delivered(v: View, w: View, t: ActionTerms, sources: set<Source>) {
    forall s :: if s in sources then
                  && |EffectsIn(w, s)| == |EffectsIn(v, s)| + 1 && EffectsIn(v, s) <= EffectsIn(w, s)
                  && ShowsTerms(EffectsIn(w, s)[|EffectsIn(v, s)|], t, s, |EffectsIn(v, s)| + 1)
                else EffectsIn(w, s) == EffectsIn(v, s)
  }

  predicate Untouched(v: View, id: string, s: Source) {
    forall i :: 0 <= i < |EffectsIn(v, s)| ==> EffectsIn(v, s)[i].actionId != id
  }

  /** Some committed record, in any source, serves this case and business key for another action. */
  ghost predicate Contested(v: View, t: ActionTerms) {
    exists s, i :: 0 <= i < |EffectsIn(v, s)| && EffectsIn(v, s)[i].caseId == t.caseId
                   && EffectsIn(v, s)[i].businessKey == t.businessKey && EffectsIn(v, s)[i].actionId != t.actionId
  }

  /** Some attempt used the action's idempotency key for another contract. */
  predicate KeyTaken(v: View, a: Action) {
    exists i :: 0 <= i < |v.attempts| && v.attempts[i].idempotencyKey == a.terms.idempotencyKey
                && v.attempts[i].contract != a.contract
  }

  /** No receipt, no competing remedy, and none of the sources the operation writes holds anything of the action. */
  ghost predicate CleanStart(v: View, a: Action) {
    && a.terms.actionId !in v.receipts && !Contested(v, a.terms) && !KeyTaken(v, a)
    && match a.terms.operation
       case Refund => Untouched(v, a.terms.actionId, PAYMENT)
       case Reship =>
         && Untouched(v, a.terms.actionId, OMS) && Untouched(v, a.terms.actionId, INVENTORY)
         && Untouched(v, a.terms.actionId, WMS)
  }

  /** The two attempts a call notes: that it started, and how it ended. */
  predicate NotedTwice(v: View, w: View, a: Action, status: AttemptStatus) {
    var n := |v.attempts|;
    && |w.attempts| == n + 2 && v.attempts <= w.attempts
    && w.attempts[n].status == EffectStarted && w.attempts[n + 1].status == status
    && forall k :: n <= k < n + 2
         ==> && w.attempts[k].contract == a.contract && w.attempts[k].actionId == a.terms.actionId
             && w.attempts[k].idempotencyKey == a.terms.idempotencyKey && w.attempts[k].sequence == k + 1
  }

  lemma UntouchedIsAbsent(v: View, id: string, s: Source)
    ensures Untouched(v, id, s) <==> !HasEffect(v, s, id)
  {
  }

  lemma WhereItWrites(operation: Operation)
    ensures RequiredSources(operation) == if operation == Refund then [PAYMENT] else [OMS, INVENTORY, WMS]
    ensures forall s :: s in RequiredSources(operation)
                        <==> match operation case Refund => s == PAYMENT case Reship => s != PAYMENT
  {
    match operation
    case Refund => assert RequiredSources(operation) == [PAYMENT];
    case Reship =>
      assert RequiredSources(operation) == [OMS, INVENTORY, WMS];
      assert OMS in RequiredSources(operation) && INVENTORY in RequiredSources(operation)
             && WMS in RequiredSources(operation);
  }

  lemma CleanMayApply(v: View, a: Action)
    ensures CleanStart(v, a) <==> MayApply(v, true, a)
  {
    WhereItWrites(a.terms.operation);
    forall s ensures Untouched(v, a.terms.actionId, s) <==> !HasEffect(v, s, a.terms.actionId) {
      UntouchedIsAbsent(v, a.terms.actionId, s);
    }
    assert Contested(v, a.terms) <==> ServedByOther(v, a.terms) by {
      ContestedIsServed(v, a.terms);
    }
    hide HasEffect, Untouched, RequiredSources, Contested, ServedByOther;
    forall s | s in RequiredSources(a.terms.operation)
      ensures s in Present(v, a) <==> HasEffect(v, s, a.terms.actionId)
    {
    }
    match a.terms.operation
    case Refund => assert PAYMENT in RequiredSources(a.terms.operation);
    case Reship => assert OMS in RequiredSources(a.terms.operation) && INVENTORY in RequiredSources(a.terms.operation);
  }

  lemma ContestedIsServed(v: View, t: ActionTerms)
    ensures Contested(v, t) <==> ServedByOther(v, t)
  {
    if ServedByOther(v, t) {
      var s, i :| 0 <= i < |EffectsIn(v, s)| && Foreign(EffectsIn(v, s)[i], t);
      assert EffectsIn(v, s)[i].caseId == t.caseId;
    }
    if Contested(v, t) {
      var s, i :| 0 <= i < |EffectsIn(v, s)| && EffectsIn(v, s)[i].caseId == t.caseId
                  && EffectsIn(v, s)[i].businessKey == t.businessKey && EffectsIn(v, s)[i].actionId != t.actionId;
      assert Foreign(EffectsIn(v, s)[i], t);
    }
  }

  /** Steps that apply exactly these sources, each at most once, deliver to exactly these. */
  lemma StepsDeliver(v: View, a: Action, steps: seq<Step>, sources: set<Source>)
    requires forall i, j :: 0 <= i < j < |steps| && steps[i].Apply? ==> steps[i] != steps[j]
    requires forall s :: Apply(s) in steps <==> s in sources
    ensures Delivered(v, DoAll(v, a, steps), a.terms, sources)
  {
    hide DoAll, EffectOf, ShowsTerms, EffectsIn;
    forall s
      ensures EffectsIn(DoAll(v, a, steps), s)
              == EffectsIn(v, s) + (if s in sources then [EffectOf(a.terms, s, |EffectsIn(v, s)| + 1)] else [])
      ensures ShowsTerms(EffectOf(a.terms, s, |EffectsIn(v, s)| + 1), a.terms, s, |EffectsIn(v, s)| + 1)
    {
      StepsAdd(v, a, steps, s);
      EffectShowsTerms(a.terms, s, |EffectsIn(v, s)| + 1);
    }
  }

  // ---- what each fault leaves ----

  /** The sources a call from a clean start writes before the fault strikes. */
  function Written(operation: Operation, fault: Fault): set<Source> {
    match fault
    case BeforeMutation => {}
    case TimeoutBeforeMutation => {}
    case AfterFirstEffect => if operation == Refund then {PAYMENT} else {OMS}
    case _ => if operation == Refund then {PAYMENT} else {OMS, INVENTORY, WMS}
  }

  /** How the call ends, as its last attempt entry says. */
  function LastStatus(fault: Fault): AttemptStatus {
    match fault
    case NoFault => SimulatedEffectCommitted
    case BeforeMutation => FailedBeforeMutation
    case TimeoutBeforeMutation => FailedBeforeMutation
    case _ => EffectUnknown
  }

  lemma AppliesExactly(sources: seq<Source>, s: Source)
    ensures Apply(s) in Applies(sources) <==> s in sources
  {
    if s in sources {
      var i :| 0 <= i < |sources| && sources[i] == s;
      assert Applies(sources)[i] == Apply(s);
    }
  }

  lemma FreshWrites(a: Action, reconciled: bool, fault: Fault, s: Source)
    ensures Apply(s) in FreshPlan(a, reconciled, fault).steps <==> s in Written(a.terms.operation, fault)
  {
    var sources := RequiredSources(a.terms.operation);
    WhereItWrites(a.terms.operation);
    AppliesExactly(sources, s);
    AppliesExactly(sources[..1], s);
    hide RequiredSources, Applies;
    assert sources[..1] == [sources[0]];
  }

  /** A finished call from a clean start ran its whole fresh plan. */
  lemma FreshPlanRan(v: View, a: Action, fault: Fault, w: View, r: Result<Receipt>)
    requires MayApply(v, true, a) && Follows(v, a, ExecutePlan(v, true, a, fault), w, r) && r != Err(Crash)
    ensures var plan := FreshPlan(a, KeyUsed(v.attempts, a), fault);
            w == DoAll(v, a, plan.steps) && r == plan.outcome
  {
    hide HasEffect, ServedByOther, KeyConflict, KeyUsed, Required, DoAll, FreshPlan;
  }

  lemma {:induction false} NotedOnlyByNotes(v: View, a: Action, prefix: seq<Step>, more: seq<Step>)
    requires forall i :: 0 <= i < |more| ==> !more[i].Note?
    ensures DoAll(v, a, prefix + more).attempts == DoAll(v, a, prefix).attempts
  {
    hide EffectOf, ReceiptOf;
    if more == [] {
      assert prefix + more == prefix;
    } else {
      var n := |more| - 1;
      NotedOnlyByNotes(v, a, prefix, more[..n]);
      DoNext(v, a, prefix + more[..n], more[n]);
      assert prefix + more == prefix + more[..n] + [more[n]];
    }
  }

  lemma FirstAndLastNoted(v: View, a: Action, used: bool, middle: seq<Step>, status: AttemptStatus, reconciled: bool)
    requires forall i :: 0 <= i < |middle| ==> !middle[i].Note?
    ensures NotedTwice(v, DoAll(v, a, [Note(EffectStarted, used)] + middle + [Note(status, reconciled)]), a, status)
  {
    hide EffectOf, ReceiptOf, DoAll;
    DoOne(v, a, Note(EffectStarted, used));
    NotedOnlyByNotes(v, a, [Note(EffectStarted, used)], middle);
    DoNext(v, a, [Note(EffectStarted, used)] + middle, Note(status, reconciled));
  }

  lemma FreshNotes(v: View, a: Action, used: bool, fault: Fault)
    ensures NotedTwice(v, DoAll(v, a, FreshPlan(a, used, fault).steps), a, LastStatus(fault))
  {
    hide DoAll, NotedTwice, RequiredSources;
    var sources, start := RequiredSources(a.terms.operation), [Note(EffectStarted, used)];
    SomethingRequired(a);
    match fault
    case NoFault =>
      FirstAndLastNoted(v, a, used, Applies(sources) + [Issue(used)], SimulatedEffectCommitted, used);
      assert start + Applies(sources) + [Issue(used), Note(SimulatedEffectCommitted, used)]
             == start + (Applies(sources) + [Issue(used)]) + [Note(SimulatedEffectCommitted, used)];
    case AfterFirstEffect =>
      FirstAndLastNoted(v, a, used, Applies(sources[..1]), EffectUnknown, false);
    case BeforeMutation =>
      FirstAndLastNoted(v, a, used, [], FailedBeforeMutation, false);
      assert start + [] + [Note(FailedBeforeMutation, false)] == start + [Note(FailedBeforeMutation, false)];
    case TimeoutBeforeMutation =>
      FirstAndLastNoted(v, a, used, [], FailedBeforeMutation, false);
      assert start + [] + [Note(FailedBeforeMutation, false)] == start + [Note(FailedBeforeMutation, false)];
    case _ =>
      FirstAndLastNoted(v, a, used, Applies(sources), EffectUnknown, false);
  }

  lemma FreshReceipts(v: View, a: Action, used: bool, fault: Fault)
    ensures var w := DoAll(v, a, FreshPlan(a, used, fault).steps);
            w.receipts == if fault == NoFault then v.receipts[a.terms.actionId := ReceiptOf(a, used)] else v.receipts
  {
    var steps := FreshPlan(a, used, fault).steps;
    FreshIsInOrder(v, a, used, fault);
    FreshAppliesOnce(a, used, fault);
    StepsIssue(v, a, steps);
    if fault == NoFault {
      var head := [Note(EffectStarted, used)] + Applies(RequiredSources(a.terms.operation));
      IssuedReceiptStays(v, a, head, used, SimulatedEffectCommitted);
      assert steps[|head|] == Issue(used);
    }
    hide DoAll, ReceiptOf, InOrder, HasEffect, RequiredSources;
  }

  /**
   * One call, fault by fault. From a clean start, unless the process dies, the fault alone decides: which sources
   * gained exactly the record the terms call for (none, the first, or all of them), whether the receipt was issued and
   * returned, what was noted, and which error is reported.
   */
  lemma FaultDecides(v: View, a: Action, fault: Fault, w: View, r: Result<Receipt>)
    requires CleanStart(v, a) && Follows(v, a, ExecutePlan(v, true, a, fault), w, r) && r != Err(Crash)
    ensures Delivered(v, w, a.terms, Written(a.terms.operation, fault)) && NotedTwice(v, w, a, LastStatus(fault))
    ensures match fault
            case NoFault =>
              && r.Ok? && w.receipts == v.receipts[a.terms.actionId := r.value]
              && r.value.actionId == a.terms.actionId && r.value.contract == a.contract
              && r.value.operation == a.terms.operation
              && (r.value.reconciled
                  <==> exists i :: 0 <= i < |v.attempts| && v.attempts[i].idempotencyKey == a.terms.idempotencyKey)
            case BeforeMutation => w.receipts == v.receipts && r == Err(Control)
            case TimeoutBeforeMutation => w.receipts == v.receipts && r == Err(Control)
            case _ => w.receipts == v.receipts && r == Err(OutcomeUnknown)
  {
    CleanMayApply(v, a);
    var used := KeyUsed(v.attempts, a);
    var plan := FreshPlan(a, used, fault);
    FreshPlanRan(v, a, fault, w, r);
    FreshAppliesOnce(a, used, fault);
    forall s ensures Apply(s) in plan.steps <==> s in Written(a.terms.operation, fault) {
      FreshWrites(a, used, fault, s);
    }
    StepsDeliver(v, a, plan.steps, Written(a.terms.operation, fault));
    FreshNotes(v, a, used, fault);
    FreshReceipts(v, a, used, fault);
    hide DoAll, Delivered, NotedTwice, CleanStart, MayApply, Written, LastStatus, ExecutePlan, Follows;
  }

  /**
   * What makes a call do nothing at all: no exact reservation, a receipt that is there already (returned if it is
   * this contract's, refused otherwise), a key taken by another contract, or a remedy already served by another action.
   */
  lemma NothingToDo(v: View, reserved: bool, a: Action, fault: Fault, w: View, r: Result<Receipt>)
    requires !reserved || a.terms.actionId in v.receipts || KeyTaken(v, a) || Contested(v, a.terms)
    requires Follows(v, a, ExecutePlan(v, reserved, a, fault), w, r)
    ensures w == v
    ensures r == if reserved && a.terms.actionId in v.receipts && v.receipts[a.terms.actionId].contract == a.contract
                 then Ok(v.receipts[a.terms.actionId]) else Err(Control)
  {
    ContestedIsServed(v, a.terms);
    hide Contested, ServedByOther, KeyUsed, FreshPlan, ReconcilePlan;
    var done :| Followed(v, a, ExecutePlan(v, reserved, a, fault), done, w, r);
    assert ExecutePlan(v, reserved, a, fault).steps == [];
    assert done == [];
  }

  // ---- what an interrupted remedy leaves to the next call ----

  /** Every source the operation writes holds something of the action. */
  predicate AllThere(v: View, a: Action) {
    match a.terms.operation
    case Refund => !Untouched(v, a.terms.actionId, PAYMENT)
    case Reship =>
      && !Untouched(v, a.terms.actionId, OMS) && !Untouched(v, a.terms.actionId, INVENTORY)
      && !Untouched(v, a.terms.actionId, WMS)
  }

  /** A reship of which one of the three sources holds something and another does not. */
  predicate HalfThere(v: View, a: Action) {
    && a.terms.operation == Reship && !AllThere(v, a)
    && (!Untouched(v, a.terms.actionId, OMS) || !Untouched(v, a.terms.actionId, INVENTORY)
        || !Untouched(v, a.terms.actionId, WMS))
  }

  lemma ThereIsPresent(v: View, a: Action)
    ensures AllThere(v, a) <==> FullyApplied(v, a)
    ensures HalfThere(v, a) <==> PartlyApplied(v, a)
  {
    forall s ensures Untouched(v, a.terms.actionId, s) <==> !HasEffect(v, s, a.terms.actionId) {
      UntouchedIsAbsent(v, a.terms.actionId, s);
    }
    WhereItWrites(a.terms.operation);
    hide HasEffect, Untouched;
    match a.terms.operation
    case Refund =>
      assert Required(a) == {PAYMENT};
      RefundIsNeverHalfway(v, a);
    case Reship =>
      assert Required(a) == {OMS, INVENTORY, WMS};
      assert FullyApplied(v, a) ==> Present(v, a) == Required(a);
      assert !FullyApplied(v, a) ==> Present(v, a) != Required(a);
      assert OMS in Required(a) && INVENTORY in Required(a) && WMS in Required(a);
      assert Present(v, a) != {} <==> OMS in Present(v, a) || INVENTORY in Present(v, a) || WMS in Present(v, a);
  }

  /** With the whole remedy in the sources and only the receipt missing, a finished call issues just that. */
  lemma OnlyTheReceiptIsIssued(v: View, a: Action, fault: Fault, w: View, r: Result<Receipt>)
    requires a.terms.actionId !in v.receipts && !Contested(v, a.terms) && !KeyTaken(v, a) && AllThere(v, a)
    requires Follows(v, a, ExecutePlan(v, true, a, fault), w, r) && r != Err(Crash)
    ensures w.effects == v.effects && r.Ok? && w.receipts == v.receipts[a.terms.actionId := r.value]
    ensures r.value.actionId == a.terms.actionId && r.value.contract == a.contract && r.value.reconciled
  {
    ThereIsPresent(v, a);
    ContestedIsServed(v, a.terms);
    hide Contested, ServedByOther, FullyApplied, AllThere;
    FullPlanOnlyIssues(v, a, fault);
    var plan := ExecutePlan(v, true, a, fault);
    assert plan.steps == [Issue(true)] + [Note(ReconciledCommittedEffect, true)];
    DoOne(v, a, Issue(true));
    DoNext(v, a, [Issue(true)], Note(ReconciledCommittedEffect, true));
    hide ExecutePlan, DoAll;
  }

  /** With a reship half there, a finished call touches neither a source nor a receipt and reports it unknown. */
  lemma HalfIsLeftAlone(v: View, a: Action, fault: Fault, w: View, r: Result<Receipt>)
    requires a.terms.actionId !in v.receipts && !Contested(v, a.terms) && !KeyTaken(v, a) && HalfThere(v, a)
    requires Follows(v, a, ExecutePlan(v, true, a, fault), w, r) && r != Err(Crash)
    ensures w.effects == v.effects && w.receipts == v.receipts && r == Err(OutcomeUnknown)
  {
    ThereIsPresent(v, a);
    ContestedIsServed(v, a.terms);
    PartialIsLeftAlone(v, true, a, fault, w, r);
    hide Contested, ServedByOther, HalfThere, Present, Required, KeyUsed, FreshPlan, DoAll;
  }
}
