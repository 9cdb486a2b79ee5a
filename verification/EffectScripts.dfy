/**
 * What one adapter call decides: from the committed view of the effect side, the durable steps it takes in order
 * and how it ends. A crash cuts the steps anywhere.
 */
module EffectScripts {
  import opened Results
  import opened Records
  import opened Actions
  import opened EffectJournals

  /** The committed side of an effect directory, tails and quarantine aside. */
  datatype View = View(effects: map<Source, seq<Effect>>, attempts: seq<Attempt>, receipts: map<string, Receipt>)

  datatype Fault =
    | NoFault
    | BeforeMutation
    | TimeoutBeforeMutation
    | AfterFirstEffect
    | AfterMutationBeforeReceipt
    | TimeoutAfterMutation
    | ReceiptPersistenceFailure

  datatype Step = Note(status: AttemptStatus, reconciled: bool) | Apply(source: Source) | Issue(reconciled: bool)

  datatype Plan = Plan(steps: seq<Step>, outcome: Result<Receipt>)

  const ALL_SOURCES: seq<Source> := [PAYMENT, OMS, INVENTORY, WMS]

  function ViewOf(f: EffectFiles): View {
    View(map[PAYMENT := Committed(f, PAYMENT), OMS := Committed(f, OMS),
             INVENTORY := Committed(f, INVENTORY), WMS := Committed(f, WMS)],
         CommittedAttempts(f.attempts), f.receipts)
  }

  lemma ViewShows(f: EffectFiles)
    ensures forall s :: s in ViewOf(f).effects && ViewOf(f).effects[s] == Committed(f, s)
  {
    hide Committed;
    forall s ensures s in ViewOf(f).effects && ViewOf(f).effects[s] == Committed(f, s) {
      match s case PAYMENT => case OMS => case INVENTORY => case WMS =>
    }
  }

  // ---- steps ----

  function AttemptOf(a: Action, sequence: int, status: AttemptStatus, reconciled: bool): Attempt {
    Attempt(a.contract, a.terms.actionId, sequence, a.terms.idempotencyKey, reconciled, status)
  }

  function ReceiptOf(a: Action, reconciled: bool): Receipt {
    Receipt(a.terms.actionId, a.contract, a.terms.operation, reconciled)
  }

  function EffectsIn(v: View, s: Source): seq<Effect> {
    if s in v.effects then v.effects[s] else []
  }

  function DoStep(v: View, a: Action, step: Step): View {
    match step
    case Note(status, reconciled) =>
      v.(attempts := v.attempts + [AttemptOf(a, |v.attempts| + 1, status, reconciled)])
    case Apply(s) =>
      v.(effects := v.effects[s := EffectsIn(v, s) + [EffectOf(a.terms, s, |EffectsIn(v, s)| + 1)]])
    case Issue(reconciled) =>
      v.(receipts := v.receipts[a.terms.actionId := ReceiptOf(a, reconciled)])
  }

  function DoAll(v: View, a: Action, steps: seq<Step>): View {
    if steps == [] then v
    else DoStep(DoAll(v, a, steps[..|steps| - 1]), a, steps[|steps| - 1])
  }

  lemma DoNext(v: View, a: Action, steps: seq<Step>, step: Step)
    ensures DoAll(v, a, steps + [step]) == DoStep(DoAll(v, a, steps), a, step)
  {
    assert (steps + [step])[..|steps|] == steps;
  }

  lemma DoOne(v: View, a: Action, step: Step)
    ensures DoAll(v, a, []) == v && DoAll(v, a, [step]) == DoStep(v, a, step)
  {
    assert [step][..0] == [];
  }

  // ---- the decision ----

  predicate HasEffect(v: View, s: Source, id: string) {
    HasId(EffectsIn(v, s), id)
  }

  /** Which of the required sources already hold an effect of this action. */
  function Present(v: View, a: Action): set<Source> {
    set s | s in RequiredSources(a.terms.operation) && HasEffect(v, s, a.terms.actionId)
  }

  function Required(a: Action): set<Source> {
    set s | s in RequiredSources(a.terms.operation)
  }

  predicate KeyUsed(attempts: seq<Attempt>, a: Action) {
    exists i :: 0 <= i < |attempts| && attempts[i].idempotencyKey == a.terms.idempotencyKey
  }

  predicate KeyConflict(attempts: seq<Attempt>, a: Action) {
    exists i :: 0 <= i < |attempts| && attempts[i].idempotencyKey == a.terms.idempotencyKey
                && attempts[i].contract != a.contract
  }

  predicate Foreign(e: Effect, t: ActionTerms) {
    SameRemedy(e, t.caseId, t.businessKey) && e.actionId != t.actionId
  }

  predicate ServedByOther(v: View, t: ActionTerms) {
    exists s, i :: 0 <= i < |EffectsIn(v, s)| && Foreign(EffectsIn(v, s)[i], t)
  }

  function Applies(sources: seq<Source>): (steps: seq<Step>)
    ensures |steps| == |sources| && forall i :: 0 <= i < |steps| ==> steps[i] == Apply(sources[i])
  {
    seq(|sources|, i requires 0 <= i < |sources| => Apply(sources[i]))
  }

  /** From an untouched action, by the fault injected into this call. */
  function FreshPlan(a: Action, reconciled: bool, fault: Fault): Plan {
    var sources := RequiredSources(a.terms.operation);
    var start := [Note(EffectStarted, reconciled)];
    match fault
    case BeforeMutation => Plan(start + [Note(FailedBeforeMutation, false)], Err(Control))
    case TimeoutBeforeMutation => Plan(start + [Note(FailedBeforeMutation, false)], Err(Control))
    case AfterFirstEffect => Plan(start + Applies(sources[..1]) + [Note(EffectUnknown, false)], Err(OutcomeUnknown))
    case NoFault => Plan(start + Applies(sources) + [Issue(reconciled), Note(SimulatedEffectCommitted, reconciled)],
                         Ok(ReceiptOf(a, reconciled)))
    case _ => Plan(start + Applies(sources) + [Note(EffectUnknown, false)], Err(OutcomeUnknown))
  }

  /** A reserved action without a receipt: reconcile what is there before anything is written. */
  function ReconcilePlan(v: View, a: Action, fault: Fault): Plan {
    if Present(v, a) != {} && Present(v, a) != Required(a) then
      Plan([Note(PartialEffectRequiresRecovery, true)], Err(OutcomeUnknown))
    else if Present(v, a) != {} then
      Plan([Issue(true), Note(ReconciledCommittedEffect, true)], Ok(ReceiptOf(a, true)))
    else
      FreshPlan(a, KeyUsed(v.attempts, a), fault)
  }

  /** The whole of `execute` after suffix recovery, on a readable ledger. */
  function ExecutePlan(v: View, reserved: bool, a: Action, fault: Fault): Plan {
    if !reserved then
      Plan([], Err(Control))
    else if a.terms.actionId in v.receipts then
      if v.receipts[a.terms.actionId].contract != a.contract then Plan([], Err(Control))
      else Plan([], Ok(v.receipts[a.terms.actionId]))
    else if KeyConflict(v.attempts, a) || ServedByOther(v, a.terms) then
      Plan([], Err(Control))
    else
      ReconcilePlan(v, a, fault)
  }

  /** The steps done so far, and the result: the plan's own, or a crash that cut the plan short. */
  ghost predicate Followed(v: View, a: Action, plan: Plan, done: seq<Step>, w: View, r: Result<Receipt>) {
    && done <= plan.steps && w == DoAll(v, a, done)
    && (if r == Err(Crash) then |done| < |plan.steps| else done == plan.steps && r == plan.outcome)
  }

  ghost predicate Follows(v: View, a: Action, plan: Plan, w: View, r: Result<Receipt>) {
    exists done :: Followed(v, a, plan, done, w, r)
  }

  // ---- what any cut of any plan leaves ----

  /** The source gained nothing, or exactly the effect this action's contract prescribes for it. */
  ghost predicate GrewByOwn(v: View, w: View, a: Action, s: Source) {
    EffectsIn(w, s) == EffectsIn(v, s)
    || (s in RequiredSources(a.terms.operation)
        && EffectsIn(w, s) == EffectsIn(v, s) + [EffectOf(a.terms, s, |EffectsIn(v, s)| + 1)])
  }

  predicate FullyApplied(v: View, a: Action) {
    forall s :: s in RequiredSources(a.terms.operation) ==> HasEffect(v, s, a.terms.actionId)
  }

  /** Some but not all of the required sources hold the action's effect. */
  predicate PartlyApplied(v: View, a: Action) {
    Present(v, a) != {} && Present(v, a) != Required(a)
  }

  /** Committed history only grows, by this action's own effects, and a receipt only over the full remedy. */
  ghost predicate Grew(v: View, w: View, a: Action) {
    && (forall s :: GrewByOwn(v, w, a, s))
    && v.attempts <= w.attempts
    && (w.receipts == v.receipts || NewReceipt(v, w, a))
  }

  ghost predicate NewReceipt(v: View, w: View, a: Action) {
    && a.terms.actionId !in v.receipts && a.terms.actionId in w.receipts
    && w.receipts == v.receipts[a.terms.actionId := w.receipts[a.terms.actionId]]
    && (exists reconciled :: w.receipts[a.terms.actionId] == ReceiptOf(a, reconciled))
    && FullyApplied(w, a)
  }

  /** Each source at most once and only the required ones, and a receipt only behind all of them. */
  ghost predicate InOrder(v: View, a: Action, steps: seq<Step>) {
    && (forall i, j :: 0 <= i < j < |steps| && steps[i].Apply? ==> steps[i] != steps[j])
    && (forall i, j :: 0 <= i < j < |steps| && steps[i].Issue? ==> !steps[j].Issue?)
    && (forall i :: 0 <= i < |steps| && steps[i].Apply? ==> steps[i].source in RequiredSources(a.terms.operation))
    && (forall i, s :: 0 <= i < |steps| && steps[i].Issue? && s in RequiredSources(a.terms.operation)
          ==> HasEffect(v, s, a.terms.actionId) || Apply(s) in steps[..i])
  }

  /** What one step adds. */
  lemma StepAdds(v: View, a: Action, step: Step, s: Source)
    ensures EffectsIn(DoStep(v, a, step), s)
            == EffectsIn(v, s) + (if step == Apply(s) then [EffectOf(a.terms, s, |EffectsIn(v, s)| + 1)] else [])
    ensures v.attempts <= DoStep(v, a, step).attempts
    ensures !step.Issue? ==> DoStep(v, a, step).receipts == v.receipts
  {
    hide EffectOf, AttemptOf, ReceiptOf;
  }

  /** What a list of steps adds, step by step. */
  lemma {:induction false} StepsAdd(v: View, a: Action, steps: seq<Step>, s: Source)
    requires forall i, j :: 0 <= i < j < |steps| && steps[i].Apply? ==> steps[i] != steps[j]
    ensures EffectsIn(DoAll(v, a, steps), s)
            == EffectsIn(v, s) + (if Apply(s) in steps then [EffectOf(a.terms, s, |EffectsIn(v, s)| + 1)] else [])
    ensures v.attempts <= DoAll(v, a, steps).attempts
    ensures (forall i :: 0 <= i < |steps| ==> !steps[i].Issue?) ==> DoAll(v, a, steps).receipts == v.receipts
  {
    hide EffectOf, DoStep, EffectsIn;
    if steps != [] {
      var prefix, last := steps[..|steps| - 1], steps[|steps| - 1];
      StepsAdd(v, a, prefix, s);
      StepAdds(DoAll(v, a, prefix), a, last, s);
      assert steps == prefix + [last];
      assert last.Apply? ==> last !in prefix;
    }
  }

  /** Receipts change only by issuing this action's. */
  lemma {:induction false} StepsIssue(v: View, a: Action, steps: seq<Step>)
    requires forall i, j :: 0 <= i < j < |steps| && steps[i].Issue? ==> !steps[j].Issue?
    ensures if exists i :: 0 <= i < |steps| && steps[i].Issue?
            then exists reconciled :: DoAll(v, a, steps).receipts
                                      == v.receipts[a.terms.actionId := ReceiptOf(a, reconciled)]
            else DoAll(v, a, steps).receipts == v.receipts
  {
    hide EffectOf, ReceiptOf, AttemptOf;
    if steps != [] {
      var prefix, last := steps[..|steps| - 1], steps[|steps| - 1];
      StepsIssue(v, a, prefix);
      if last.Issue? {
        assert forall i :: 0 <= i < |prefix| ==> prefix[i] == steps[i];
        assert steps[|steps| - 1].Issue?;
      } else if i :| 0 <= i < |steps| && steps[i].Issue? {
        assert prefix[i].Issue?;
      }
    }
  }

  lemma HasNewEffect(v: View, w: View, a: Action, s: Source)
    requires EffectsIn(w, s) == EffectsIn(v, s) + [EffectOf(a.terms, s, |EffectsIn(v, s)| + 1)]
    ensures HasEffect(w, s, a.terms.actionId)
  {
    EffectNames(a.terms, s, |EffectsIn(v, s)| + 1);
    assert EffectsIn(w, s)[|EffectsIn(v, s)|].actionId == a.terms.actionId;
  }

  lemma StillHasEffect(v: View, w: View, s: Source, id: string)
    requires HasEffect(v, s, id) && EffectsIn(v, s) <= EffectsIn(w, s)
    ensures HasEffect(w, s, id)
  {
    var i :| 0 <= i < |EffectsIn(v, s)| && EffectsIn(v, s)[i].actionId == id;
    assert EffectsIn(w, s)[i].actionId == id;
  }

  lemma IssuedWhenApplied(v: View, a: Action, steps: seq<Step>)
    requires InOrder(v, a, steps) && exists i :: 0 <= i < |steps| && steps[i].Issue?
    ensures FullyApplied(DoAll(v, a, steps), a)
  {
    hide HasEffect, DoAll, EffectOf, RequiredSources;
    var w := DoAll(v, a, steps);
    var i :| 0 <= i < |steps| && steps[i].Issue?;
    forall s | s in RequiredSources(a.terms.operation) ensures HasEffect(w, s, a.terms.actionId) {
      StepsAdd(v, a, steps, s);
      if Apply(s) in steps {
        HasNewEffect(v, w, a, s);
      } else {
        StillHasEffect(v, w, s, a.terms.actionId);
      }
    }
  }

  lemma OrderedStepsGrow(v: View, a: Action, steps: seq<Step>)
    requires InOrder(v, a, steps) && a.terms.actionId !in v.receipts
    ensures Grew(v, DoAll(v, a, steps), a)
  {
    hide DoAll, EffectOf, FullyApplied, ReceiptOf;
    var w := DoAll(v, a, steps);
    forall s ensures GrewByOwn(v, w, a, s) {
      StepsAdd(v, a, steps, s);
    }
    StepsAdd(v, a, steps, PAYMENT);
    StepsIssue(v, a, steps);
    if exists i :: 0 <= i < |steps| && steps[i].Issue? {
      IssuedWhenApplied(v, a, steps);
      var reconciled :| w.receipts == v.receipts[a.terms.actionId := ReceiptOf(a, reconciled)];
    }
  }

  lemma FreshAppliesFirst(a: Action, reconciled: bool)
    ensures var steps := FreshPlan(a, reconciled, NoFault).steps;
            forall i, s :: 0 <= i < |steps| && steps[i].Issue? && s in RequiredSources(a.terms.operation)
              ==> Apply(s) in steps[..i]
  {
  }

  lemma FreshAppliesOnce(a: Action, reconciled: bool, fault: Fault)
    ensures var steps := FreshPlan(a, reconciled, fault).steps;
            && (forall i, j :: 0 <= i < j < |steps| && steps[i].Apply? ==> steps[i] != steps[j])
            && (forall i ::
                  0 <= i < |steps| && steps[i].Apply? ==> steps[i].source in RequiredSources(a.terms.operation))
            && (forall i :: 0 <= i < |steps| && steps[i].Issue? ==> fault.NoFault? && i == |steps| - 2)
  {
  }

  lemma FreshIsInOrder(v: View, a: Action, reconciled: bool, fault: Fault)
    ensures InOrder(v, a, FreshPlan(a, reconciled, fault).steps)
  {
    FreshAppliesOnce(a, reconciled, fault);
    if fault.NoFault? {
      FreshAppliesFirst(a, reconciled);
    }
    hide HasEffect, FreshPlan, RequiredSources;
  }

  lemma AllPresent(v: View, a: Action)
    requires Present(v, a) == Required(a)
    ensures FullyApplied(v, a)
  {
    hide HasEffect;
    forall s | s in RequiredSources(a.terms.operation) ensures HasEffect(v, s, a.terms.actionId) {
      assert s in Required(a);
    }
  }

  lemma PlansAreInOrder(v: View, reserved: bool, a: Action, fault: Fault)
    ensures InOrder(v, a, ExecutePlan(v, reserved, a, fault).steps)
  {
    hide HasEffect, ServedByOther, KeyConflict, KeyUsed, FreshPlan, Present, Required, RequiredSources;
    FreshIsInOrder(v, a, KeyUsed(v.attempts, a), fault);
    if Present(v, a) == Required(a) {
      AllPresent(v, a);
    }
  }

  lemma PrefixInOrder(v: View, a: Action, steps: seq<Step>, done: seq<Step>)
    requires InOrder(v, a, steps) && done <= steps
    ensures InOrder(v, a, done)
  {
    hide HasEffect;
    assert forall i :: 0 <= i < |done| ==> done[i] == steps[i] && done[..i] == steps[..i];
  }

  /**
   * Exactly once, for one call. Whatever the fault and wherever the process dies, each source gained at most one
   * effect, the one the contract prescribes; nothing committed was lost; and a new receipt stands only over the
   * full remedy.
   */
  lemma AnyCutGrows(v: View, reserved: bool, a: Action, fault: Fault, w: View, r: Result<Receipt>)
    requires Follows(v, a, ExecutePlan(v, reserved, a, fault), w, r)
    ensures Grew(v, w, a)
  {
    hide ReconcilePlan, HasEffect, InOrder, Grew, ServedByOther, KeyConflict;
    var plan := ExecutePlan(v, reserved, a, fault);
    var done :| Followed(v, a, plan, done, w, r);
    if a.terms.actionId in v.receipts {
      NothingGrows(v, a);
    } else {
      PlansAreInOrder(v, reserved, a, fault);
      PrefixInOrder(v, a, plan.steps, done);
      OrderedStepsGrow(v, a, done);
    }
  }

  lemma NothingGrows(v: View, a: Action)
    ensures Grew(v, v, a)
  {
  }

  // ---- no blind retry ----

  /** A call that may write an effect: reserved, no receipt yet, and nothing of the remedy committed anywhere. */
  predicate MayApply(v: View, reserved: bool, a: Action) {
    && reserved && a.terms.actionId !in v.receipts && Present(v, a) == {}
    && !KeyConflict(v.attempts, a) && !ServedByOther(v, a.terms)
  }

  lemma OnlyFreshPlansApply(v: View, reserved: bool, a: Action, fault: Fault)
    ensures var steps := ExecutePlan(v, reserved, a, fault).steps;
            (exists i :: 0 <= i < |steps| && steps[i].Apply?) ==> MayApply(v, reserved, a)
  {
    hide HasEffect, ServedByOther, KeyConflict, KeyUsed, FreshPlan, Required, RequiredSources;
  }

  /** The first step of a plan that applies anything is to commit the attempt. */
  lemma AttemptComesFirst(v: View, reserved: bool, a: Action, fault: Fault)
    requires MayApply(v, reserved, a)
    ensures var plan := ExecutePlan(v, reserved, a, fault);
            |plan.steps| > 1 && plan.steps[0] == Note(EffectStarted, KeyUsed(v.attempts, a))
  {
    hide HasEffect, ServedByOther, KeyConflict, KeyUsed, Required;
  }

  lemma {:induction false} StartedStays(v: View, a: Action, done: seq<Step>)
    requires |done| > 0 && done[0].Note?
    ensures |DoAll(v, a, done).attempts| > |v.attempts|
    ensures DoAll(v, a, done).attempts[|v.attempts|] == AttemptOf(a, |v.attempts| + 1, done[0].status,
                                                                  done[0].reconciled)
  {
    hide EffectOf, ReceiptOf, AttemptOf;
    if |done| > 1 {
      StartedStays(v, a, done[..|done| - 1]);
    } else {
      assert done[..0] == [];
    }
  }

  /**
   * No blind retry, and write-ahead. A call adds an effect only if it began with none of the action's required
   * effects committed, no receipt and no competing remedy; and by then it has committed the attempt that makes
   * any later call reconcile.
   */
  lemma EffectsNeedCleanStart(v: View, reserved: bool, a: Action, fault: Fault, w: View, r: Result<Receipt>)
    requires Follows(v, a, ExecutePlan(v, reserved, a, fault), w, r)
    requires exists s :: EffectsIn(w, s) != EffectsIn(v, s)
    ensures MayApply(v, reserved, a)
    ensures |w.attempts| > |v.attempts|
    ensures w.attempts[|v.attempts|] == AttemptOf(a, |v.attempts| + 1, EffectStarted, KeyUsed(v.attempts, a))
    ensures KeyUsed(w.attempts, a)
  {
    hide ExecutePlan, DoAll, HasEffect, InOrder, MayApply, EffectOf, ServedByOther, KeyConflict;
    var plan := ExecutePlan(v, reserved, a, fault);
    var done :| Followed(v, a, plan, done, w, r);
    var s :| EffectsIn(w, s) != EffectsIn(v, s);
    PlansAreInOrder(v, reserved, a, fault);
    PrefixInOrder(v, a, plan.steps, done);
    DistinctApplies(v, a, done);
    StepsAdd(v, a, done, s);
    AppliedSomewhere(plan.steps, done, s);
    OnlyFreshPlansApply(v, reserved, a, fault);
    AttemptComesFirst(v, reserved, a, fault);
    StartedStays(v, a, done);
  }

  lemma DistinctApplies(v: View, a: Action, steps: seq<Step>)
    requires InOrder(v, a, steps)
    ensures forall i, j :: 0 <= i < j < |steps| && steps[i].Apply? ==> steps[i] != steps[j]
  {
  }

  lemma AppliedSomewhere(steps: seq<Step>, done: seq<Step>, s: Source)
    requires done <= steps && Apply(s) in done
    ensures exists i :: 0 <= i < |steps| && steps[i].Apply?
    ensures |done| > 0 && done[0] == steps[0]
  {
    var i :| 0 <= i < |done| && done[i] == Apply(s);
    assert steps[i].Apply?;
  }

  /** A partly applied remedy: the call commits one attempt at most, and reports the outcome unknown. */
  lemma PartialIsLeftAlone(v: View, reserved: bool, a: Action, fault: Fault, w: View, r: Result<Receipt>)
    requires PartlyApplied(v, a) && a.terms.actionId !in v.receipts
    requires Follows(v, a, ExecutePlan(v, reserved, a, fault), w, r)
    ensures w.effects == v.effects && w.receipts == v.receipts && r.Err?
  {
    hide HasEffect, ServedByOther, KeyConflict, KeyUsed, FreshPlan, Present, Required, RequiredSources;
    var plan := ExecutePlan(v, reserved, a, fault);
    var done: seq<Step> :| Followed(v, a, plan, done, w, r);
    assert |plan.steps| <= 1;
    if |done| == 1 {
      assert done[0] == plan.steps[0] && done[0].Note?;
      assert DoAll(v, a, done[..0]) == v;
    } else {
      assert done == [];
    }
  }

  /**
   * Once partial, partial for good: no later call, for this action or for any other, adds an effect to it or
   * issues its receipt. `b` is any action the ledger lets through, so under this action's ID it is this action.
   */
  lemma PartialStays(v: View, a: Action, reserved: bool, b: Action, fault: Fault, w: View, r: Result<Receipt>)
    requires PartlyApplied(v, a) && a.terms.actionId !in v.receipts
    requires b.terms.actionId == a.terms.actionId ==> b == a
    requires Follows(v, b, ExecutePlan(v, reserved, b, fault), w, r)
    ensures Present(w, a) == Present(v, a) && PartlyApplied(w, a) && a.terms.actionId !in w.receipts
  {
    hide ExecutePlan, HasEffect, Follows, EffectOf;
    if b == a {
      PartialIsLeftAlone(v, reserved, a, fault, w, r);
      SameEffectsSamePresence(v, w, a);
    } else {
      AnyCutGrows(v, reserved, b, fault, w, r);
      forall s ensures HasEffect(w, s, a.terms.actionId) <==> HasEffect(v, s, a.terms.actionId) {
        OthersPresenceKept(v, w, b, s, a.terms.actionId);
      }
      assert Present(w, a) == Present(v, a);
    }
  }

  lemma SameEffectsSamePresence(v: View, w: View, a: Action)
    requires w.effects == v.effects
    ensures Present(w, a) == Present(v, a)
  {
  }

  lemma OthersPresenceKept(v: View, w: View, b: Action, s: Source, id: string)
    requires GrewByOwn(v, w, b, s) && b.terms.actionId != id
    ensures HasEffect(w, s, id) <==> HasEffect(v, s, id)
  {
    var was, now := EffectsIn(v, s), EffectsIn(w, s);
    if now != was {
      EffectNames(b.terms, s, |was| + 1);
      hide EffectOf;
      assert forall i :: 0 <= i < |was| ==> now[i] == was[i];
    }
  }

  // ---- how far a remedy has come ----

  /** The first i required sources hold the effect, the others do not. */
  ghost predicate Progress(v: View, a: Action, i: nat) {
    var sources := RequiredSources(a.terms.operation);
    && i <= |sources|
    && (forall j :: 0 <= j < i ==> HasEffect(v, sources[j], a.terms.actionId))
    && (forall j :: i <= j < |sources| ==> !HasEffect(v, sources[j], a.terms.actionId))
  }

  lemma ProgressNone(v: View, a: Action)
    requires Present(v, a) == {}
    ensures Progress(v, a, 0)
  {
    hide HasEffect;
    forall j | 0 <= j < |RequiredSources(a.terms.operation)|
      ensures !HasEffect(v, RequiredSources(a.terms.operation)[j], a.terms.actionId)
    {
      assert RequiredSources(a.terms.operation)[j] !in Present(v, a);
    }
  }

  lemma ProgressNote(v: View, a: Action, i: nat, status: AttemptStatus, reconciled: bool)
    requires Progress(v, a, i)
    ensures Progress(DoStep(v, a, Note(status, reconciled)), a, i)
  {
  }

  lemma ProgressNext(v: View, a: Action, i: nat)
    requires Progress(v, a, i) && i < |RequiredSources(a.terms.operation)|
    ensures Progress(DoStep(v, a, Apply(RequiredSources(a.terms.operation)[i])), a, i + 1)
  {
    hide HasEffect, EffectOf;
    var sources := RequiredSources(a.terms.operation);
    var w := DoStep(v, a, Apply(sources[i]));
    HasNewEffect(v, w, a, sources[i]);
    forall j | 0 <= j < |sources| && j != i
      ensures HasEffect(w, sources[j], a.terms.actionId) == HasEffect(v, sources[j], a.terms.actionId)
    {
      assert sources[j] != sources[i];
      SameInSource(v, w, sources[j], a.terms.actionId);
    }
  }

  lemma SameInSource(v: View, w: View, s: Source, id: string)
    requires EffectsIn(w, s) == EffectsIn(v, s)
    ensures HasEffect(w, s, id) == HasEffect(v, s, id)
  {
  }

  lemma ProgressAll(v: View, a: Action)
    requires Progress(v, a, |RequiredSources(a.terms.operation)|)
    ensures FullyApplied(v, a)
  {
    hide HasEffect;
  }

  // ---- a returned receipt is a stored one ----

  lemma IssuedReceiptStays(v: View, a: Action, prefix: seq<Step>, reconciled: bool, status: AttemptStatus)
    ensures var w := DoAll(v, a, prefix + [Issue(reconciled), Note(status, reconciled)]);
            a.terms.actionId in w.receipts && w.receipts[a.terms.actionId] == ReceiptOf(a, reconciled)
  {
    hide ReceiptOf;
    DoNext(v, a, prefix, Issue(reconciled));
    DoNext(v, a, prefix + [Issue(reconciled)], Note(status, reconciled));
    assert prefix + [Issue(reconciled)] + [Note(status, reconciled)]
           == prefix + [Issue(reconciled), Note(status, reconciled)];
  }

  /** Whatever way a call succeeds, what it returns is what is stored, under this very contract. */
  lemma OkMeansStored(v: View, reserved: bool, a: Action, fault: Fault, w: View, r: Result<Receipt>)
    requires Follows(v, a, ExecutePlan(v, reserved, a, fault), w, r) && r.Ok?
    ensures reserved && a.terms.actionId in w.receipts && w.receipts[a.terms.actionId] == r.value
            && r.value.contract == a.contract
  {
    hide DoAll, HasEffect, KeyUsed, KeyConflict, ServedByOther, Present, Required;
    var plan := ExecutePlan(v, reserved, a, fault);
    var done: seq<Step> :| Followed(v, a, plan, done, w, r);
    var sources := RequiredSources(a.terms.operation);
    if a.terms.actionId in v.receipts {
      DoOne(v, a, Issue(true));
    } else if Present(v, a) != {} {
      IssuedReceiptStays(v, a, [], true, ReconciledCommittedEffect);
      assert done == [] + [Issue(true), Note(ReconciledCommittedEffect, true)];
    } else {
      var used := KeyUsed(v.attempts, a);
      IssuedReceiptStays(v, a, [Note(EffectStarted, used)] + Applies(sources), used, SimulatedEffectCommitted);
    }
  }

  // ---- what a retry finds ----

  /** Whatever a call notes, it notes under its own contract. */
  lemma {:induction false} NotesAreOwn(v: View, a: Action, steps: seq<Step>)
    ensures v.attempts <= DoAll(v, a, steps).attempts
    ensures forall i ::
              |v.attempts| <= i < |DoAll(v, a, steps).attempts|
              ==> DoAll(v, a, steps).attempts[i].contract == a.contract
  {
    hide EffectOf, ReceiptOf;
    if steps != [] {
      NotesAreOwn(v, a, steps[..|steps| - 1]);
    }
  }

  lemma StillNoConflict(v: View, w: View, a: Action)
    requires !KeyConflict(v.attempts, a) && v.attempts <= w.attempts
    requires forall i :: |v.attempts| <= i < |w.attempts| ==> w.attempts[i].contract == a.contract
    ensures !KeyConflict(w.attempts, a)
  {
    forall i | 0 <= i < |w.attempts| && w.attempts[i].idempotencyKey == a.terms.idempotencyKey
      ensures w.attempts[i].contract == a.contract
    {
      if i < |v.attempts| {
        assert w.attempts[i] == v.attempts[i];
      }
    }
  }

  lemma StillServedByNoOther(v: View, w: View, a: Action)
    requires !ServedByOther(v, a.terms) && forall s :: GrewByOwn(v, w, a, s)
    ensures !ServedByOther(w, a.terms)
  {
    hide EffectOf;
    forall s, i | 0 <= i < |EffectsIn(w, s)| ensures !Foreign(EffectsIn(w, s)[i], a.terms) {
      assert GrewByOwn(v, w, a, s);
      EffectNames(a.terms, s, |EffectsIn(v, s)| + 1);
      if i < |EffectsIn(v, s)| {
        assert EffectsIn(w, s)[i] == EffectsIn(v, s)[i];
      }
    }
  }

  lemma FullIsNotPartial(v: View, a: Action)
    requires FullyApplied(v, a)
    ensures Present(v, a) == Required(a) != {}
  {
    hide HasEffect;
    var s := RequiredSources(a.terms.operation)[0];
    assert s in Required(a);
  }

  lemma ClearedPlanOutcome(w: View, a: Action)
    requires !KeyConflict(w.attempts, a) && !ServedByOther(w, a.terms)
    requires a.terms.actionId in w.receipts ==>
               w.receipts[a.terms.actionId].contract == a.contract && !PartlyApplied(w, a)
    ensures ExecutePlan(w, true, a, NoFault).outcome.Ok? <==> !PartlyApplied(w, a)
  {
    hide KeyConflict, ServedByOther, Present, Required, KeyUsed;
  }

  /**
   * Reconcile before retry. After a call from a clean start, cut anywhere or failed by any injected fault, the next
   * faultless call succeeds if and only if the remedy was not left half applied.
   */
  lemma RetrySucceedsUnlessHalfway(v: View, a: Action, fault: Fault, w: View, r: Result<Receipt>)
    requires MayApply(v, true, a) && Follows(v, a, ExecutePlan(v, true, a, fault), w, r)
    ensures ExecutePlan(w, true, a, NoFault).outcome.Ok? <==> !PartlyApplied(w, a)
  {
    hide ExecutePlan, DoAll, KeyConflict, ServedByOther, HasEffect, Present, Required, PartlyApplied, GrewByOwn;
    AnyCutGrows(v, true, a, fault, w, r);
    var done :| Followed(v, a, ExecutePlan(v, true, a, fault), done, w, r);
    NotesAreOwn(v, a, done);
    StillNoConflict(v, w, a);
    StillServedByNoOther(v, w, a);
    if a.terms.actionId in w.receipts {
      FullIsNotPartial(w, a);
      assert !PartlyApplied(w, a) by {
        PartialMeansMissing(w, a);
      }
    }
    ClearedPlanOutcome(w, a);
  }

  lemma PartialMeansMissing(v: View, a: Action)
    ensures PartlyApplied(v, a) ==> Present(v, a) != Required(a)
  {
  }

  /** A refund has one source, so it is never half applied: its next faultless call always succeeds. */
  lemma RefundIsNeverHalfway(v: View, a: Action)
    requires a.terms.operation == Refund
    ensures !PartlyApplied(v, a)
  {
    hide HasEffect;
    assert Required(a) == {PAYMENT};
    if PAYMENT in Present(v, a) {
      assert Present(v, a) == {PAYMENT};
    } else {
      assert Present(v, a) == {};
    }
  }

  lemma FullPlanOnlyIssues(w: View, a: Action, fault: Fault)
    requires FullyApplied(w, a) && a.terms.actionId !in w.receipts
    requires !KeyConflict(w.attempts, a) && !ServedByOther(w, a.terms)
    ensures ExecutePlan(w, true, a, fault) == Plan([Issue(true), Note(ReconciledCommittedEffect, true)],
                                                   Ok(ReceiptOf(a, true)))
  {
    hide KeyConflict, ServedByOther, KeyUsed, FreshPlan, Present, Required, FullyApplied;
    FullIsNotPartial(w, a);
  }

  predicate LosesReceipt(fault: Fault) {
    fault in {AfterMutationBeforeReceipt, TimeoutAfterMutation, ReceiptPersistenceFailure}
  }

  lemma LossComesAfterEffects(v: View, a: Action, fault: Fault)
    requires MayApply(v, true, a) && LosesReceipt(fault)
    ensures var plan := ExecutePlan(v, true, a, fault);
            && plan.outcome == Err(OutcomeUnknown)
            && (forall s :: s in RequiredSources(a.terms.operation) ==> Apply(s) in plan.steps)
            && (forall i :: 0 <= i < |plan.steps| ==> !plan.steps[i].Issue?)
  {
    hide HasEffect, ServedByOther, KeyConflict, KeyUsed, Required;
    var plan, sources := ExecutePlan(v, true, a, fault), RequiredSources(a.terms.operation);
    forall s | s in sources ensures Apply(s) in plan.steps {
      var i :| 0 <= i < |sources| && sources[i] == s;
      assert plan.steps[i + 1] == Apply(s);
    }
  }

  /**
   * A lost receipt is recovered without touching a source. After a call that applied the whole remedy and lost its
   * receipt, the next call, whatever fault is injected into it, only issues the receipt and notes the reconciliation.
   */
  lemma LostReceiptIsReconciled(v: View, a: Action, fault: Fault, w: View, retry: Fault)
    requires MayApply(v, true, a) && LosesReceipt(fault)
    requires Follows(v, a, ExecutePlan(v, true, a, fault), w, Err(OutcomeUnknown))
    ensures w.effects != v.effects && a.terms.actionId !in w.receipts
    ensures ExecutePlan(w, true, a, retry) == Plan([Issue(true), Note(ReconciledCommittedEffect, true)],
                                                   Ok(ReceiptOf(a, true)))
  {
    hide ExecutePlan, DoAll, KeyConflict, ServedByOther, HasEffect, Present, Required, GrewByOwn, EffectOf, InOrder,
         RequiredSources;
    LossComesAfterEffects(v, a, fault);
    AnyCutGrows(v, true, a, fault, w, Err(OutcomeUnknown));
    var steps := ExecutePlan(v, true, a, fault).steps;
    PlansAreInOrder(v, true, a, fault);
    DistinctApplies(v, a, steps);
    StepsAdd(v, a, steps, PAYMENT);
    forall s | s in RequiredSources(a.terms.operation) ensures HasEffect(w, s, a.terms.actionId)
           && w.effects != v.effects {
      StepsAdd(v, a, steps, s);
      HasNewEffect(v, w, a, s);
    }
    SomethingRequired(a);
    NotesAreOwn(v, a, steps);
    StillNoConflict(v, w, a);
    StillServedByNoOther(v, w, a);
    FullPlanOnlyIssues(w, a, retry);
  }

  lemma SomethingRequired(a: Action)
    ensures RequiredSources(a.terms.operation)[0] in RequiredSources(a.terms.operation)
  {
  }

  // ---- what the steps of a plan keep ----

  lemma ViewFields(f: EffectFiles)
    ensures ViewOf(f).attempts == CommittedAttempts(f.attempts) && ViewOf(f).receipts == f.receipts
  {
  }

  lemma NotServed(f: EffectFiles, t: ActionTerms)
    requires !ServedByOther(ViewOf(f), t)
    ensures NoForeignRemedy(f, t)
  {
    hide Committed;
    ViewShows(f);
    forall s, i | 0 <= i < |Committed(f, s)| && SameRemedy(Committed(f, s)[i], t.caseId, t.businessKey)
      ensures Committed(f, s)[i].actionId == t.actionId
    {
      assert !Foreign(EffectsIn(ViewOf(f), s)[i], t);
    }
  }

  lemma NowApplied(f: EffectFiles, a: Action)
    requires FullyApplied(ViewOf(f), a)
    ensures Applied(f, a.terms.operation, a.terms.actionId)
  {
    hide Committed, HasId, RequiredSources;
    ViewShows(f);
    forall s | s in RequiredSources(a.terms.operation) ensures HasId(Committed(f, s), a.terms.actionId) {
      assert HasEffect(ViewOf(f), s, a.terms.actionId);
    }
  }

  /** What a reserved contract prescribes is backed by its reservation. */
  lemma ReservedIsBacked(events: seq<Event>, a: Action, s: Source, sequence: int)
    requires ValidAction(a) && ReservedExactly(events, a) && s in RequiredSources(a.terms.operation)
    ensures Backed(events, s, EffectOf(a.terms, s, sequence))
  {
    hide ReservedExactly;
    EffectNames(a.terms, s, sequence);
    ReservedExactlyIsFirst(events, a);
  }

  /** A committed effect of the later view: one of the earlier view, or the one this call applied from a clean start. */
  ghost predicate OldOrOwn(f: EffectFiles, g: EffectFiles, a: Action, s: Source, i: nat)
    requires i < |Committed(g, s)|
  {
    || (i < |Committed(f, s)| && Committed(g, s)[i] == Committed(f, s)[i])
    || (i == |Committed(f, s)| && Committed(g, s)[i] == EffectOf(a.terms, s, i + 1)
        && s in RequiredSources(a.terms.operation))
  }

  ghost predicate AllOldOrOwn(f: EffectFiles, g: EffectFiles, a: Action) {
    forall s, i :: 0 <= i < |Committed(g, s)| ==> OldOrOwn(f, g, a, s, i)
  }

  lemma GrewIsOldOrOwn(f: EffectFiles, g: EffectFiles, a: Action)
    requires forall s :: GrewByOwn(ViewOf(f), ViewOf(g), a, s)
    ensures AllOldOrOwn(f, g, a) && forall s :: Committed(f, s) <= Committed(g, s)
  {
    hide Committed, EffectOf, RequiredSources;
    ViewShows(f);
    ViewShows(g);
    forall s ensures Committed(f, s) <= Committed(g, s) {
      assert GrewByOwn(ViewOf(f), ViewOf(g), a, s);
    }
    forall s, i | 0 <= i < |Committed(g, s)| ensures OldOrOwn(f, g, a, s, i) {
      assert GrewByOwn(ViewOf(f), ViewOf(g), a, s);
    }
  }

  lemma PlanKeepsBacked(events: seq<Event>, f: EffectFiles, g: EffectFiles, a: Action)
    requires AllBacked(events, f) && AllOldOrOwn(f, g, a) && ValidAction(a) && ReservedExactly(events, a)
    ensures AllBacked(events, g)
  {
    hide Committed, EffectOf, RequiredSources, Backed, ValidAction, ReservedExactly;
    forall s, i | 0 <= i < |Committed(g, s)| ensures Backed(events, s, Committed(g, s)[i]) {
      assert OldOrOwn(f, g, a, s, i);
      if i < |Committed(f, s)| {
        assert Backed(events, s, Committed(f, s)[i]);
      } else {
        ReservedIsBacked(events, a, s, i + 1);
      }
    }
  }

  /** No effect of another action serves the remedy, so what this action adds stands beside its own only. */
  lemma PlanKeepsOneAction(f: EffectFiles, g: EffectFiles, a: Action)
    requires OneActionPerRemedy(f) && AllOldOrOwn(f, g, a) && NoForeignRemedy(f, a.terms)
    ensures OneActionPerRemedy(g)
  {
    hide Committed, EffectOf, RequiredSources;
    forall s, t, i, j | 0 <= i < |Committed(g, s)| && 0 <= j < |Committed(g, t)|
      && SameRemedy(Committed(g, s)[i], Committed(g, t)[j].caseId, Committed(g, t)[j].businessKey)
      ensures Committed(g, s)[i].actionId == Committed(g, t)[j].actionId
    {
      assert OldOrOwn(f, g, a, s, i) && OldOrOwn(f, g, a, t, j);
      EffectNames(a.terms, s, i + 1);
      EffectNames(a.terms, t, j + 1);
      if i < |Committed(f, s)| && j < |Committed(f, t)| {
        assert SameRemedy(Committed(f, s)[i], Committed(f, t)[j].caseId, Committed(f, t)[j].businessKey);
      } else if i < |Committed(f, s)| {
        assert SameRemedy(Committed(f, s)[i], a.terms.caseId, a.terms.businessKey);
      } else if j < |Committed(f, t)| {
        assert SameRemedy(Committed(f, t)[j], a.terms.caseId, a.terms.businessKey);
      }
    }
  }

  lemma PlanKeepsReceipts(events: seq<Event>, f: EffectFiles, g: EffectFiles, a: Action)
    requires ReceiptsBacked(events, f) && ValidAction(a) && ReservedExactly(events, a)
    requires forall s :: Committed(f, s) <= Committed(g, s)
    requires g.receipts == f.receipts || NewReceipt(ViewOf(f), ViewOf(g), a)
    ensures ReceiptsBacked(events, g)
  {
    hide Committed, Applied, ReservedExactly, FullyApplied;
    ViewFields(f);
    ViewFields(g);
    ReservedExactlyIsFirst(events, a);
    forall id | id in g.receipts ensures ReceiptBacked(events, g, id, g.receipts[id]) {
      if id in f.receipts {
        assert ReceiptBacked(events, f, id, f.receipts[id]);
        AppliedGrows(f, g, f.receipts[id].operation, id);
      } else {
        NowApplied(g, a);
      }
    }
  }

  lemma UnreservedMovesNothing(v: View, b: Action, fault: Fault, w: View, r: Result<Receipt>)
    requires Follows(v, b, ExecutePlan(v, false, b, fault), w, r)
    ensures w == v
  {
    var done :| Followed(v, b, ExecutePlan(v, false, b, fault), done, w, r);
    assert done == [];
  }

  /**
   * Following the plan is what keeps the effects exact: from a directory whose effects and receipts rest on their
   * reservations, any cut of any plan leads to another such directory.
   */
  lemma PlanKeepsEffects(events: seq<Event>, f: EffectFiles, g: EffectFiles, a: Action, fault: Fault,
                         r: Result<Receipt>)
    requires EffectInv(events, f) && LogsInv(g.logs) && AttemptInv(g.attempts) && ValidAction(a)
    requires Follows(ViewOf(f), a, ExecutePlan(ViewOf(f), ReservedExactly(events, a), a, fault), ViewOf(g), r)
    ensures EffectInv(events, g)
  {
    hide LogsInv, AttemptInv, AllBacked, ReceiptsBacked, OneActionPerRemedy, Committed, CommittedAttempts,
         ExecutePlan, Follows, ReservedExactly, ValidAction, FullyApplied, ServedByOther, GrewByOwn, AllOldOrOwn,
         EffectOf, ViewOf, NewReceipt, KeyConflict, NoForeignRemedy;
    var v, w, reserved := ViewOf(f), ViewOf(g), ReservedExactly(events, a);
    ViewFields(f);
    ViewFields(g);
    SameViewSameEffects(f, g);
    if !reserved {
      UnreservedMovesNothing(v, a, fault, w, r);
    }
    if w == v {
      SameEffectsKeep(events, f, g);
    } else {
      AnyCutGrows(v, reserved, a, fault, w, r);
      GrewIsOldOrOwn(f, g, a);
      PlanKeepsBacked(events, f, g, a);
      PlanKeepsReceipts(events, f, g, a);
      if exists s :: EffectsIn(w, s) != EffectsIn(v, s) {
        EffectsNeedCleanStart(v, reserved, a, fault, w, r);
        NotServed(f, a.terms);
        PlanKeepsOneAction(f, g, a);
      } else {
        SameCommittedKeepsOneAction(f, g);
      }
    }
  }

  lemma SameViewSameEffects(f: EffectFiles, g: EffectFiles)
    ensures ViewOf(g) == ViewOf(f) ==> SameEffects(f, g)
    ensures forall s :: EffectsIn(ViewOf(f), s) == Committed(f, s) && EffectsIn(ViewOf(g), s) == Committed(g, s)
  {
    hide Committed, CommittedAttempts;
    ViewShows(f);
    ViewShows(g);
  }

  lemma SameCommittedKeepsOneAction(f: EffectFiles, g: EffectFiles)
    requires OneActionPerRemedy(f) && forall s :: Committed(g, s) == Committed(f, s)
    ensures OneActionPerRemedy(g)
  {
    hide Committed;
  }
}
