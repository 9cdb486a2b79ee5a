/** The recommendation use case: a provider may propose, policy decides, and routing follows policy alone. */
module Recommendation {
  import opened Results
  import opened Workflow
  import opened Records
  import opened Ledger
  import opened Writers
  import opened LedgerInvariant
  import opened GuardedChain
  import Journals
  import Policy
  import SystemRuns
  import Workspace

  datatype RecommendationCommand = RecommendationCommand(
    recommendationId: string,
    expectedRevision: int,
    expectedHead: Digest,
    commandId: CommandId,
    routeCommandId: Option<CommandId>)

  datatype ProviderResult = ProviderResult(candidate: Option<Policy.Candidate>, status: string)

  /** The governed outcome: policy's own decision, with or without an acceptable proposal beside it. */
  function GovernedOutcome(facts: Policy.Facts, result: ProviderResult): Result<Policy.Governed> {
    match result.candidate
    case Some(c) => Policy.Govern(facts, c)
    case None =>
      var decision :- Policy.Decide(facts);
      Ok(Policy.Governed(decision, false, [Policy.ProviderFailed(result.status)]))
  }

  /** Where a decision is routed: nowhere for a direct condition, or not at all before evidence is handled. */
  function RouteOf(d: Policy.PolicyDecision): Result<Option<Route>> {
    match d.route
    case SpecialistStop => Ok(Some((ControlStopped, ControlStopApplied)))
    case ChoiceRoute => Ok(Some((AwaitingChoice, CustomerChoiceRequired)))
    case DirectNoAction => if d.action in {Policy.WaitVerifiedEta, Policy.NoNewAction} then Ok(None) else Err(Control)
    case FinanceApproval => Ok(Some((AwaitingApproval, AuthorityDecisionRequired)))
    case WorkflowOwnerApproval => Ok(Some((AwaitingApproval, AuthorityDecisionRequired)))
    case DelegatedDecision => Ok(Some((AwaitingApproval, AuthorityDecisionRequired)))
    case _ => Err(Control)
  }

  function RecommendCommand(c: RecommendationCommand, governed: Policy.Governed, result: ProviderResult): (cmd: Command)
    ensures Guarded(cmd)
  {
    Command(RecommendationReady, RecommendationRecorded, "provider_boundary", "S2-ACTOR-RECOMMENDATION-BOUNDARY",
            c.expectedRevision, c.expectedHead, c.commandId, map[RecommendationId := c.recommendationId],
            Recommended(governed, result.candidate, result.status), 0)
  }

  type Route = (WorkflowState, EventType)

  function RouteCommand(c: RecommendationCommand, p: Projection, route: Route, id: CommandId, governed: Policy.Governed)
    : (cmd: Command)
    requires RouteOf(governed.decision) == Ok(Some(route))
    ensures Guarded(cmd)
  {
    Command(route.0, route.1, "deterministic_control", "S2-ACTOR-POLICY-CONTROL", p.revision, p.head, id,
            map[RecommendationId := c.recommendationId], Recommended(governed, None, ""), 0)
  }

  /** The events a completed call adds, by policy's decision and by whether routing was asked for. */
  function Entered(d: Policy.PolicyDecision, routed: bool): seq<Route> {
    [(RecommendationReady, RecommendationRecorded)]
    + (if routed && RouteOf(d).Ok? && RouteOf(d).value.Some? then [RouteOf(d).value.value] else [])
  }

  /** One committed event: it enters this state by this type, and carries the governed outcome. */
  predicate CarriesOutcome(e: Event, route: Route, id: string, governed: Policy.Governed) {
    && e.body.toState == route.0 && e.body.eventType == route.1 && e.body.links == map[RecommendationId := id]
    && e.body.decision.Recommended? && e.body.decision.governed == governed
  }

  /** The ledger gained exactly these events, each carrying the outcome. */
  ghost predicate OutcomeOnLedger(f: Files, g: Files, routes: seq<Route>, id: string, governed: Policy.Governed) {
    var events, more := Committed(f), Committed(g);
    && events <= more && |more| == |events| + |routes|
    && forall k :: 0 <= k < |routes| ==> CarriesOutcome(more[|events| + k], routes[k], id, governed)
  }

  /** Where a completed recommendation leaves the case, and the event that took it there. */
  predicate EndsIn(d: Policy.PolicyDecision, routed: bool, state: WorkflowState, t: EventType) {
    if !routed then
      state == RecommendationReady && t == RecommendationRecorded
    else
      match d.route
      case SpecialistStop => state == ControlStopped && t == ControlStopApplied
      case ChoiceRoute => state == AwaitingChoice && t == CustomerChoiceRequired
      case FinanceApproval => state == AwaitingApproval && t == AuthorityDecisionRequired
      case WorkflowOwnerApproval => state == AwaitingApproval && t == AuthorityDecisionRequired
      case DelegatedDecision => state == AwaitingApproval && t == AuthorityDecisionRequired
      case DirectNoAction => state == RecommendationReady && t == RecommendationRecorded
      case _ => false
  }

  lemma RoutesEnd(d: Policy.PolicyDecision, routed: bool)
    requires routed ==> RouteOf(d).Ok?
    ensures var last := Entered(d, routed)[|Entered(d, routed)| - 1]; EndsIn(d, routed, last.0, last.1)
  {
  }

  /**
   * What a completed recommendation leaves: policy's own decision, in the answer and in every event committed for it,
   * and the state and objects that follow from it. Nothing in it mentions the provider.
   */
  ghost predicate DecidedByPolicy(m: Manifest, f: Files, g: Files, facts: Policy.Facts, c: RecommendationCommand,
                                  governed: Policy.Governed) {
    && Policy.Decide(facts) == Ok(governed.decision)
    && var routes := Entered(governed.decision, c.routeCommandId.Some?);
    && OutcomeOnLedger(f, g, routes, c.recommendationId, governed)
    && Current(m, f).Ok? && Current(m, f).value.state == ContextReady && Current(m, g).Ok?
    && var p, q := Current(m, f).value, Current(m, g).value;
    && EndsIn(governed.decision, c.routeCommandId.Some?, q.state, Committed(g)[|Committed(g)| - 1].body.eventType)
    && q.active == p.active[RecommendationId := c.recommendationId]
    && q.revision == p.revision && q.invalidated == p.invalidated
    && q.sequence == p.sequence + |routes|
  }

  /** The whole call: record the governed outcome, then route it. Each append may die at any of its writes. */
  function RecommendRun(m: Manifest, f: Files, c: RecommendationCommand, facts: Policy.Facts, result: ProviderResult,
                        first: Journals.Power, second: Journals.Power): (Files, Result<Policy.Governed>)
  {
    var context := Current(m, f);
    var governed := GovernedOutcome(facts, result);
    if context.Err? then (f, Err(context.error))
    else if context.value.state != ContextReady || context.value.revision != c.expectedRevision
            || context.value.head != c.expectedHead then (f, Err(Control))
    else if governed.Err? then (f, governed)
    else
      var (g, recorded) := AppendRun(m, f, RecommendCommand(c, governed.value, result), first);
      if recorded.Err? then (g, Err(recorded.error))
      else if c.routeCommandId.None? then (g, governed)
      else
        var route := RouteOf(governed.value.decision);
        if route.Err? then (g, Err(route.error))
        else if route.value.None? then (g, governed)
        else
          var (h, routed) := AppendRun(m, g, RouteCommand(c, recorded.value, route.value.value, c.routeCommandId.value,
                                                          governed.value), second);
          (h, if routed.Ok? then governed else Err(routed.error))
  }

  /** What a completed call leaves, whatever the provider said. */
  lemma RecommendDecides(m: Manifest, f: Files, c: RecommendationCommand, facts: Policy.Facts, result: ProviderResult,
                         first: Journals.Power, second: Journals.Power)
    requires LedgerInv(m, f)
    ensures var (g, r) := RecommendRun(m, f, c, facts, result, first, second);
            && LedgerInv(m, g) && Extends(f, g)
            && (r.Ok? ==> && DecidedByPolicy(m, f, g, facts, c, r.value) && AcceptedMeansAgreed(result, r.value)
                          && ProposalKept(f, g, result))
  {
    hide LedgerInv, Current, AppendRun, Grows, Extends, Policy.Decide, Policy.Govern, Recorded, Committed,
         Policy.Supported, OutcomeOnLedger, RecommendCommand, RouteCommand, MovedBy, RouteOf, EndsIn, ProposalKept,
         AcceptedMeansAgreed;
    ExtendsItself(f);
    var context, governed := Current(m, f), GovernedOutcome(facts, result);
    if context.Ok? && context.value.head == c.expectedHead && context.value.revision == c.expectedRevision
       && governed.Ok? {
      GovernedIsPolicy(facts, result);
      NotRouted(governed.value.decision);
      RecommendationRecords(m, f, c, governed.value, result, first);
      var (g, recorded) := AppendRun(m, f, RecommendCommand(c, governed.value, result), first);
      var route := RouteOf(governed.value.decision);
      if recorded.Ok? && c.routeCommandId.Some? && route.Ok? && route.value.Some? {
        RoutingRecords(m, f, g, c, route.value.value, governed.value, second);
        var (h, routed) := AppendRun(m, g, RouteCommand(c, recorded.value, route.value.value, c.routeCommandId.value,
                                                        governed.value), second);
        ExtendsFurther(f, g, h);
        assert Entered(governed.value.decision, true) == [(RecommendationReady, RecommendationRecorded),
                                                          route.value.value];
        if routed.Ok? {
          LastEntered(f, h, Entered(governed.value.decision, true), c.recommendationId, governed.value);
          RoutesEnd(governed.value.decision, true);
          ProposalStays(f, g, h, result);
        }
      } else if recorded.Ok? && (c.routeCommandId.None? || route.Ok?) {
        assert Entered(governed.value.decision, c.routeCommandId.Some?)
               == [(RecommendationReady, RecommendationRecorded)];
        LastEntered(f, g, Entered(governed.value.decision, c.routeCommandId.Some?), c.recommendationId,
                    governed.value);
        RoutesEnd(governed.value.decision, c.routeCommandId.Some?);
      }
    }
  }

  lemma NotRouted(d: Policy.PolicyDecision)
    ensures Entered(d, false) == [(RecommendationReady, RecommendationRecorded)]
  {
  }

  lemma LastEntered(f: Files, g: Files, routes: seq<Route>, id: string, governed: Policy.Governed)
    requires OutcomeOnLedger(f, g, routes, id, governed) && routes != []
    ensures Committed(g)[|Committed(g)| - 1].body.eventType == routes[|routes| - 1].1
  {
    hide Committed;
    var n := |Committed(f)|;
    assert CarriesOutcome(Committed(g)[n + (|routes| - 1)], routes[|routes| - 1], id, governed);
  }

  /** The recommendation on record keeps what the provider proposed, and how its attempt ended. */
  ghost predicate ProposalKept(f: Files, g: Files, result: ProviderResult) {
    && |Committed(f)| < |Committed(g)|
    && var d := Committed(g)[|Committed(f)|].body.decision;
    d.Recommended? && d.proposal == result.candidate && d.status == result.status
  }

  lemma ProposalStays(f: Files, g: Files, h: Files, result: ProviderResult)
    requires ProposalKept(f, g, result) && Extends(g, h)
    ensures ProposalKept(f, h, result)
  {
    hide Committed;
  }

  /** The first append: the outcome, under the recommendation's ID. */
  lemma RecommendationRecords(m: Manifest, f: Files, c: RecommendationCommand, governed: Policy.Governed,
                              result: ProviderResult, power: Journals.Power)
    requires LedgerInv(m, f) && Current(m, f).Ok? && Current(m, f).value.head == c.expectedHead
    ensures var (g, r) := AppendRun(m, f, RecommendCommand(c, governed, result), power);
            && LedgerInv(m, g) && Extends(f, g)
            && (r.Ok? ==> && OutcomeOnLedger(f, g, [(RecommendationReady, RecommendationRecorded)], c.recommendationId,
                                             governed)
                          && ProposalKept(f, g, result)
                          && Current(m, g) == r && Linked(Current(m, f).value, r.value, RecommendationReady,
                                                          c.recommendationId))
  {
    hide LedgerInv, Current, AppendRun, Grows, Extends, Committed;
    var cmd := RecommendCommand(c, governed, result);
    CurrentAppendRecords(m, f, cmd, power);
    AppendedEvent(m, f, cmd, power);
    GrowsExtends(f, AppendRun(m, f, cmd, power).0);
    LinkedIsActive(Current(m, f).value.active, c.recommendationId);
  }

  /** What one of the two appends does to the projection. */
  predicate Linked(p: Projection, q: Projection, target: WorkflowState, id: string) {
    && q.state == target && q.active == p.active[RecommendationId := id] && q.revision == p.revision
    && q.invalidated == p.invalidated && q.sequence == p.sequence + 1
  }

  /** The second append: the same outcome again, entering the routed state. */
  lemma RoutingRecords(m: Manifest, f: Files, g: Files, c: RecommendationCommand, route: Route,
                       governed: Policy.Governed,
                       power: Journals.Power)
    requires LedgerInv(m, g) && Current(m, g).Ok? && c.routeCommandId.Some?
             && RouteOf(governed.decision) == Ok(Some(route))
    requires OutcomeOnLedger(f, g, [(RecommendationReady, RecommendationRecorded)], c.recommendationId, governed)
    ensures var (h, r) := AppendRun(m, g, RouteCommand(c, Current(m, g).value, route, c.routeCommandId.value,
                                                       governed), power);
            && LedgerInv(m, h) && Extends(g, h)
            && (r.Ok? ==> && OutcomeOnLedger(f, h, [(RecommendationReady, RecommendationRecorded), route],
                                             c.recommendationId, governed)
                          && Current(m, h) == r && Linked(Current(m, g).value, r.value, route.0, c.recommendationId))
  {
    hide LedgerInv, Current, AppendRun, Grows, Extends, Committed, RouteOf;
    var cmd := RouteCommand(c, Current(m, g).value, route, c.routeCommandId.value, governed);
    CurrentAppendRecords(m, g, cmd, power);
    AppendedEvent(m, g, cmd, power);
    GrowsExtends(g, AppendRun(m, g, cmd, power).0);
    LinkedIsActive(Current(m, g).value.active, c.recommendationId);
  }

  /** Exactly a proposal of policy's own action and route, on facts policy supports, is accepted. */
  predicate AcceptedMeansAgreed(result: ProviderResult, governed: Policy.Governed) {
    && (governed.accepted
        <==> && result.candidate.Some? && result.candidate.value.action == governed.decision.action
             && result.candidate.value.route == governed.decision.route
             && forall i :: 0 <= i < |result.candidate.value.messageFacts|
                  ==> result.candidate.value.messageFacts[i] in governed.decision.messageFacts)
    && (result.candidate.None? ==> governed.rejections == [Policy.ProviderFailed(result.status)])
  }

  class RecoveryApplicationService {
    const workspace: Workspace.FileRecoveryWorkspace

    constructor (workspace: Workspace.FileRecoveryWorkspace)
      ensures this.workspace == workspace
    {
      this.workspace := workspace;
    }

    /** `recommend`. The facts are what the pinned source batch of the current revision derives. */
    method Recommend(c: RecommendationCommand, facts: Policy.Facts, result: ProviderResult)
      returns (r: Result<Policy.Governed>)
      requires LedgerInv(workspace.manifest, workspace.files)
      modifies workspace
      ensures exists second :: (workspace.files, r) == RecommendRun(workspace.manifest, old(workspace.files), c, facts,
                                                                    result,
                                                                   old(workspace.power), second)
      ensures LedgerInv(workspace.manifest, workspace.files)
    {
      hide LedgerInv, Current, AppendRun, Grows, Extends, GovernedOutcome;
      ghost var m, f, first := workspace.manifest, workspace.files, workspace.power;
      var context := workspace.Replay();
      if context.Err? {
        r := Err(context.error);
        assert (f, r) == RecommendRun(m, f, c, facts, result, first, first);
        return;
      }
      if context.value.state != ContextReady || context.value.revision != c.expectedRevision
         || context.value.head != c.expectedHead {
        r := Err(Control);
        assert (f, r) == RecommendRun(m, f, c, facts, result, first, first);
        return;
      }
      var governed := GovernedOutcome(facts, result);
      if governed.Err? {
        r := governed;
        assert (f, r) == RecommendRun(m, f, c, facts, result, first, first);
        return;
      }
      var recorded := workspace.AppendTransition(RecommendCommand(c, governed.value, result));
      ghost var second := workspace.power;
      if recorded.Err? {
        r := Err(recorded.error);
        assert (workspace.files, r) == RecommendRun(m, f, c, facts, result, first, second);
        return;
      }
      r := governed;
      if c.routeCommandId.Some? {
        var route := RouteOf(governed.value.decision);
        if route.Err? {
          r := Err(route.error);
        } else if route.value.Some? {
          var routed := workspace.AppendTransition(RouteCommand(c, recorded.value, route.value.value,
                                                                c.routeCommandId.value,
                                                                governed.value));
          r := if routed.Err? then Err(routed.error) else governed;
        }
      }
      assert (workspace.files, r) == RecommendRun(m, f, c, facts, result, first, second);
    }
  }

  lemma GovernedIsPolicy(facts: Policy.Facts, result: ProviderResult)
    requires GovernedOutcome(facts, result).Ok?
    ensures var governed := GovernedOutcome(facts, result).value;
            && Policy.Decide(facts) == Ok(governed.decision)
            && AcceptedMeansAgreed(result, governed)
  {
    hide Policy.Decide;
    if result.candidate.Some? {
      Policy.GovernedByPolicy(facts, result.candidate.value);
    }
  }

  lemma LinkedIsActive(active: Links, id: string)
    ensures active + ObjectLinks(map[RecommendationId := id]) == active[RecommendationId := id]
  {
  }

  lemma ExtendsItself(f: Files)
    ensures Extends(f, f)
  {
  }

  lemma GrowsExtends(f: Files, g: Files)
    requires Grows(f, g)
    ensures Extends(f, g)
  {
  }

  lemma ExtendsFurther(f: Files, g: Files, h: Files)
    requires Extends(f, g) && Extends(g, h)
    ensures Extends(f, h)
  {
    hide Committed;
  }

  /** Two committed events that differ at most in what the provider had said. */
  predicate SameButProvider(x: Event, y: Event) {
    && x.body.toState == y.body.toState && x.body.eventType == y.body.eventType && x.body.links == y.body.links
    && x.body.decision.Recommended? && y.body.decision.Recommended?
    && x.body.decision.governed.decision == y.body.decision.governed.decision
  }

  /** The two ledgers grew from this one by equally many such events. */
  ghost predicate SameRecords(f: Files, g: Files, h: Files) {
    var events, xs, ys := Committed(f), Committed(g), Committed(h);
    && events <= xs && events <= ys && |xs| == |ys| > |events|
    && forall k :: |events| <= k < |xs| ==> SameButProvider(xs[k], ys[k])
  }

  lemma RecordsAgree(f: Files, g: Files, h: Files, routes: seq<Route>, id: string, one: Policy.Governed,
                     two: Policy.Governed)
    requires routes != [] && one.decision == two.decision
    requires OutcomeOnLedger(f, g, routes, id, one) && OutcomeOnLedger(f, h, routes, id, two)
    ensures SameRecords(f, g, h)
  {
    hide Committed;
    var events, xs, ys := Committed(f), Committed(g), Committed(h);
    forall k | |events| <= k < |xs| ensures SameButProvider(xs[k], ys[k]) {
      assert CarriesOutcome(xs[|events| + (k - |events|)], routes[k - |events|], id, one);
      assert CarriesOutcome(ys[|events| + (k - |events|)], routes[k - |events|], id, two);
    }
  }

  /** A completed and routed recommendation on a charged-back or risk-flagged case has stopped it for a specialist. */
  lemma RiskyCaseIsStopped(m: Manifest, f: Files, c: RecommendationCommand, facts: Policy.Facts,
                           result: ProviderResult, first: Journals.Power, second: Journals.Power)
    requires LedgerInv(m, f) && c.routeCommandId.Some? && (facts.activeChargeback || facts.riskFlags != [])
    requires RecommendRun(m, f, c, facts, result, first, second).1.Ok?
    ensures var g := RecommendRun(m, f, c, facts, result, first, second).0;
            Current(m, g).Ok? && Current(m, g).value.state == ControlStopped
  {
    hide LedgerInv, RecommendRun, Extends, Current, Policy.Decide, OutcomeOnLedger, RouteOf, Entered, Committed;
    RecommendDecides(m, f, c, facts, result, first, second);
    Policy.RefusesExactly(facts);
    Policy.RiskStopsFirst(facts);
  }

  /**
   * Provider non-interference. Two completed calls of one recommendation from one ledger and one set of facts, under
   * whatever two provider results, commit equally many events that carry the same governed decision, enter the same
   * states by the same types and link the same objects, and end in the same state with the same active and invalidated
   * objects.
   */
  lemma ProviderCannotSteer(m: Manifest, f: Files, c: RecommendationCommand, facts: Policy.Facts,
                            one: ProviderResult, two: ProviderResult, p: Journals.Power, q: Journals.Power,
                            p': Journals.Power, q': Journals.Power)
    requires LedgerInv(m, f)
    requires RecommendRun(m, f, c, facts, one, p, q).1.Ok? && RecommendRun(m, f, c, facts, two, p', q').1.Ok?
    ensures var (g, r) := RecommendRun(m, f, c, facts, one, p, q);
            var (h, s) := RecommendRun(m, f, c, facts, two, p', q');
            && r.value.decision == s.value.decision && SameRecords(f, g, h)
            && Current(m, g).Ok? && Current(m, h).Ok?
            && var x, y := Current(m, g).value, Current(m, h).value;
               x.state == y.state && x.active == y.active && x.invalidated == y.invalidated
               && x.revision == y.revision && x.sequence == y.sequence
  {
    hide LedgerInv, RecommendRun, Extends, Current, Policy.Decide, OutcomeOnLedger, SameRecords, RouteOf;
    RecommendDecides(m, f, c, facts, one, p, q);
    RecommendDecides(m, f, c, facts, two, p', q');
    var (g, r) := RecommendRun(m, f, c, facts, one, p, q);
    var (h, s) := RecommendRun(m, f, c, facts, two, p', q');
    RecordsAgree(f, g, h, Entered(r.value.decision, c.routeCommandId.Some?), c.recommendationId, r.value, s.value);
  }

  // ---- the use case as steps of a run ----

  /** These calls lead from one world to the other. */
  ghost predicate Steps(m: Manifest, w: World, calls: seq<SystemRuns.Call>, w': World)
    decreases |calls|
  {
    if calls == [] then w' == w
    else exists mid :: SystemRuns.Next(m, w, calls[0], mid) && Steps(m, mid, calls[1..], w')
  }

  lemma OneStep(m: Manifest, w: World, cmd: Command, power: Journals.Power)
    requires Guarded(cmd)
    ensures var w' := w.(ledger := AppendRun(m, w.ledger, cmd, power).0);
            SystemRuns.Next(m, w, SystemRuns.Append(cmd, power), w') && Steps(m, w, [SystemRuns.Append(cmd, power)], w')
  {
    hide AppendRun, Guarded;
    var w' := w.(ledger := AppendRun(m, w.ledger, cmd, power).0);
    assert Steps(m, w', [SystemRuns.Append(cmd, power)][1..], w');
  }

  lemma TwoSteps(m: Manifest, w: World, first: SystemRuns.Call, mid: World, second: SystemRuns.Call, w': World)
    requires SystemRuns.Next(m, w, first, mid) && SystemRuns.Next(m, mid, second, w')
    ensures Steps(m, w, [first, second], w')
  {
    hide SystemRuns.Next;
    assert [first, second][1..] == [second] && [second][1..] == [];
    assert Steps(m, w', [], w');
    assert Steps(m, mid, [second], w');
  }

  /** A recommendation is nothing but guarded appends: at most two calls of a run, wherever it dies or is refused. */
  lemma RecommendIsGuardedAppends(m: Manifest, w: World, c: RecommendationCommand, facts: Policy.Facts,
                                  result: ProviderResult, first: Journals.Power, second: Journals.Power)
    ensures exists calls :: |calls| <= 2
              && Steps(m, w, calls, w.(ledger := RecommendRun(m, w.ledger, c, facts, result, first, second).0))
  {
    hide LedgerInv, Current, AppendRun, GovernedOutcome, RouteOf, RecommendCommand, RouteCommand, SystemRuns.Next,
         Steps;
    var w' := w.(ledger := RecommendRun(m, w.ledger, c, facts, result, first, second).0);
    NoStep(m, w);
    var governed := GovernedOutcome(facts, result);
    if w' != w && governed.Ok? {
      var cmd := RecommendCommand(c, governed.value, result);
      var (g, recorded) := AppendRun(m, w.ledger, cmd, first);
      var mid := w.(ledger := g);
      OneStep(m, w, cmd, first);
      var route := RouteOf(governed.value.decision);
      if recorded.Ok? && c.routeCommandId.Some? && route.Ok? && route.value.Some? {
        var next := RouteCommand(c, recorded.value, route.value.value, c.routeCommandId.value, governed.value);
        OneStep(m, mid, next, second);
        TwoSteps(m, w, SystemRuns.Append(cmd, first), mid, SystemRuns.Append(next, second), w');
        assert |[SystemRuns.Append(cmd, first), SystemRuns.Append(next, second)]| <= 2;
      } else {
        assert |[SystemRuns.Append(cmd, first)]| <= 2;
      }
    } else {
      var none: seq<SystemRuns.Call> := [];
      assert |none| <= 2 && Steps(m, w, none, w');
    }
  }

  lemma NoStep(m: Manifest, w: World)
    ensures Steps(m, w, [], w)
  {
  }
}
