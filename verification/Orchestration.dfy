/** The guarded chain: reserve, execute, verify, communicate and close, each step re-reading what it relies on. */
module Orchestration {
  import opened Results
  import opened Workflow
  import opened Records
  import opened Actions
  import opened Ledger
  import opened Writers
  import opened GuardedChain
  import Policy
  import Journals
  import LedgerInvariant
  import LedgerHistory
  import EffectJournals
  import EffectScripts
  import RevisionIsolation
  import Verifier
  import Adapter
  import Workspace
  import SystemRuns
  import WriterRules

  // ---- what the use cases check and say ----

  /** The run's active action is this one, in this case and revision. */
  predicate BindsAction(p: Projection, a: Action) {
    && ActionId in p.active && p.active[ActionId] == a.recordId && a.terms.actionId == a.recordId
    && a.terms.caseId == p.caseId && a.terms.caseRevision == p.revision
  }

  function StartCommand(p: Projection, a: Action, id: CommandId): (cmd: Command)
    ensures Guarded(cmd)
  {
    Command(ActionPending, ActionEffectStarted, "deterministic_control", "S2-ACTOR-ACTION-CONTROL", p.revision, p.head,
            id,
            map[ActionId := a.recordId], Plain("effect_started"), 1)
  }

  function UnknownCommand(p: Projection, a: Action, id: CommandId): (cmd: Command)
    ensures Guarded(cmd)
  {
    Command(ActionRecovery, ActionEffectOutcomeUnknown, "simulated_adapter", "S2-ACTOR-LOCAL-ADAPTER", p.revision,
            p.head,
            id, map[ActionId := a.recordId], Plain("effect_unknown"), 1)
  }

  function ReceiptRecordId(actionId: string): string {
    "S2-RECEIPT-" + EffectJournals.IdSuffix(actionId)
  }

  function ReceiptCommand(p: Projection, a: Action, r: Receipt, id: CommandId): (cmd: Command)
    ensures Guarded(cmd)
  {
    Command(Verifying, AdapterReceiptRecorded, "simulated_adapter", "S2-ACTOR-LOCAL-ADAPTER", p.revision, p.head, id,
            map[ActionId := a.recordId, ReceiptId := ReceiptRecordId(r.actionId)],
            ReceiptNoted(a.contract, OfReceipt(r), r.reconciled), 1)
  }

  /** The receipt IDs the ledger links to an action. */
  function ReceiptLinks(events: seq<Event>, actionId: string): seq<string> {
    if events == [] then []
    else
      var links := events[0].body.links;
      (if ActionId in links && links[ActionId] == actionId && ReceiptId in links then [links[ReceiptId]] else [])
      + ReceiptLinks(events[1..], actionId)
  }

  predicate LinksReceipt(e: Event, actionId: string) {
    ActionId in e.body.links && e.body.links[ActionId] == actionId && ReceiptId in e.body.links
  }

  /** This event, and no other, links a receipt to the action, and it is this receipt. */
  ghost predicate SoleReceiptLink(events: seq<Event>, actionId: string, receiptId: string, i: nat) {
    && i < |events| && LinksReceipt(events[i], actionId) && events[i].body.links[ReceiptId] == receiptId
    && forall j :: 0 <= j < |events| && LinksReceipt(events[j], actionId) ==> j == i
  }

  lemma {:induction false} NoReceiptLink(events: seq<Event>, actionId: string)
    ensures ReceiptLinks(events, actionId) == []
            <==> forall j :: 0 <= j < |events| ==> !LinksReceipt(events[j], actionId)
  {
    if events != [] {
      NoReceiptLink(events[1..], actionId);
      assert forall j :: 1 <= j < |events| ==> events[j] == events[1..][j - 1];
      assert forall j :: 0 <= j < |events[1..]| ==> events[1..][j] == events[j + 1];
    }
  }

  lemma {:induction false} OneReceiptLink(events: seq<Event>, actionId: string) returns (i: nat)
    requires |ReceiptLinks(events, actionId)| == 1
    ensures SoleReceiptLink(events, actionId, ReceiptLinks(events, actionId)[0], i)
  {
    var rest := events[1..];
    assert forall j :: 1 <= j < |events| ==> events[j] == rest[j - 1];
    if LinksReceipt(events[0], actionId) {
      NoReceiptLink(rest, actionId);
      i := 0;
    } else {
      i := OneReceiptLink(rest, actionId);
      i := i + 1;
    }
  }

  predicate MilestoneFits(v: Verification) {
    if v.classification == RemedyVerified then v.milestone in {RefundCommittedExact, ReplacementCreatedReservedAccepted}
    else v.milestone in {RefundMissingOrInexact, ReplacementMissingOrInexact}
  }

  /** The only fact a message may state about a verification. */
  function FactOf(v: Verification): Option<MessageFact> {
    match (v.classification, v.milestone)
    case (RemedyVerified, RefundCommittedExact) => Some(RefundCompleted)
    case (RemedyVerified, ReplacementCreatedReservedAccepted) => Some(ReplacementMilestone)
    case (WaitCondition, CurrentReliableEta) => Some(EtaEstimate)
    case (NoNewActionCondition, PriorRemedyCoversQuantity) => Some(NoNewActionRequired)
    case _ => None
  }

  function MessageFor(p: Projection, v: Verification, fact: MessageFact, id: string,
                      eta: Option<string>): Communication {
    Communication(id, p.caseId, p.revision, v.classification, v.milestone, fact, v.recordId,
                  if v.classification == RemedyVerified then 1 else 0,
                  if fact == EtaEstimate then eta else None, true, false)
  }

  predicate Derives(p: Projection, v: Verification, c: Communication) {
    && VerificationId in p.active && p.active[VerificationId] == v.recordId
    && c.caseId == p.caseId && c.caseRevision == p.revision && v.caseId == p.caseId && v.caseRevision == p.revision
    && c.classification == v.classification && c.milestone == v.milestone && c.citation == v.recordId
  }

  function CommunicationCommand(p: Projection, v: Verification, c: Communication, id: CommandId): (cmd: Command)
    ensures Guarded(cmd)
  {
    Command(CommunicationReady,
            if p.state == VerifiedRemedy then VerifiedCommunicationCreated else CommunicationRecorded,
            "deterministic_communication_gate", "S2-ACTOR-COMMUNICATION-GATE", p.revision, p.head, id,
            map[CommunicationId := c.recordId, VerificationId := v.recordId],
            CommunicationNoted(c.classification, OfCommunication(c), OfVerification(v)), c.actionCount)
  }

  function CloseCommand(p: Projection, v: Verification, c: Communication, closureId: string,
                        id: CommandId): (cmd: Command)
    ensures Guarded(cmd)
  {
    Command(Closed, RecoveryWorkflowClosed, "deterministic_control", "S2-ACTOR-CLOSURE-CONTROL", p.revision, p.head, id,
            map[ClosureId := closureId, CommunicationId := c.recordId, VerificationId := v.recordId],
            ClosureNoted(OfCommunication(c), OfVerification(v)), 0)
  }

  // ---- what a reservation consumes ----

  /** The authority was granted for this amount, quantity, currency, target and remedy of this case and revision. */
  predicate Authorises(authority: Authority, t: ActionTerms) {
    && authority.id == t.authorityReference
    && authority.payload == OfPayload(t.amountCents, t.caseId, t.caseRevision, t.currency, t.businessKey, t.quantity,
                                      t.operation, t.target)
  }

  lemma GrantAuthorises(authority: Authority, a: Action)
    requires ValidAction(a)
    ensures authority.payload == a.terms.payload && authority.id == a.terms.authorityReference
            ==> Authorises(authority, a.terms)
  {
  }

  // ---- what an append against the current head leaves ----

  predicate PreparedAgainst(m: Manifest, f: Files, cmd: Command) {
    Current(m, f).Ok? && Current(m, f).value.head == cmd.expectedHead
  }

  ghost predicate AppendOutcome(m: Manifest, f: Files, g: Files, cmd: Command, r: Result<Projection>) {
    && (LedgerInvariant.Committed(g) == LedgerInvariant.Committed(f) || Recorded(f, g, cmd))
    && (r.Ok? ==> Recorded(f, g, cmd) && Current(m, g) == r && r.value.state == cmd.target)
  }

  /** The last committed event. */
  ghost predicate EndsWith(f: Files, t: EventType, target: WorkflowState, links: Links, d: Decision) {
    var events := LedgerInvariant.Committed(f);
    && events != [] && events[|events| - 1].body.eventType == t && events[|events| - 1].body.toState == target
    && events[|events| - 1].body.links == links && events[|events| - 1].body.decision == d
  }

  lemma RecordedLast(f: Files, g: Files, cmd: Command)
    requires Recorded(f, g, cmd)
    ensures EndsWith(g, cmd.eventType, cmd.target, cmd.links, cmd.decision)
  {
    hide LedgerInvariant.Committed;
  }

  /** The adapter may be reached only in recovery, or behind a committed start event for this action. */
  ghost predicate Engaged(m: Manifest, f: Files, g: Files, a: Action) {
    && Current(m, f).Ok?
    && var p := Current(m, f).value;
    && ActionId in p.active && p.active[ActionId] == a.recordId == a.terms.actionId
    && p.caseId == a.terms.caseId && p.revision == a.terms.caseRevision
    && (p.state == ActionRecovery
        || (p.state == ActionReserved
            && Announced(LedgerInvariant.Committed(f), LedgerInvariant.Committed(g), a)))
  }

  /** An interrupted execution leaves the run waiting for reconciliation. */
  predicate InRecovery(m: Manifest, f: Files, g: Files) {
    Current(m, f).Ok? && Current(m, f).value.state == ActionPending
    ==> Current(m, g).Ok? && Current(m, g).value.state == ActionRecovery
  }

  predicate Announced(events: seq<Event>, more: seq<Event>, a: Action) {
    && |events| < |more| && more[|events|].body.eventType == ActionEffectStarted
    && more[|events|].body.toState == ActionPending && more[|events|].body.links == map[ActionId := a.recordId]
  }

  lemma AnnouncedStays(events: seq<Event>, more: seq<Event>, later: seq<Event>, a: Action)
    requires Announced(events, more, a) && more <= later
    ensures Announced(events, later, a)
  {
  }

  // ---- direct conditions ----

  /** What the policy's direct decision is verified as, and the sources it has to cite. */
  function ConditionFor(d: Policy.PolicyDecision): Option<(Classification, Milestone, set<Policy.SourceName>)> {
    if d.route != Policy.DirectNoAction then None
    else if d.action == Policy.WaitVerifiedEta then
      Some((WaitCondition, CurrentReliableEta, {Policy.Carrier, Policy.Crm, Policy.PolicySource}))
    else if d.action == Policy.NoNewAction then
      Some((NoNewActionCondition, PriorRemedyCoversQuantity, {Policy.Oms, Policy.Payment, Policy.PolicySource}))
    else None
  }

  function Citations(cited: seq<(Policy.SourceName, string)>, required: set<Policy.SourceName>): seq<string> {
    if cited == [] then []
    else (if cited[0].0 in required then [cited[0].1] else []) + Citations(cited[1..], required)
  }

  function LinkAt(links: Links, key: LinkKey): Option<string> {
    if key in links then Some(links[key]) else None
  }

  /** The recommendations recorded under the active recommendation ID. */
  function RecommendationsFor(events: seq<Event>, id: Option<string>): seq<Decision> {
    if events == [] then []
    else
      var b := events[0].body;
      (if b.eventType == RecommendationRecorded && LinkAt(b.links, RecommendationId) == id then [b.decision] else [])
      + RecommendationsFor(events[1..], id)
  }

  function ConditionEvent(c: Classification): Option<EventType> {
    match c
    case WaitCondition => Some(VerifiedWaitCondition)
    case NoNewActionCondition => Some(VerifiedNoNewAction)
    case _ => None
  }

  function ConditionCommand(p: Projection, v: Verification, recommendation: string, id: CommandId): (cmd: Command)
    requires ConditionEvent(v.classification).Some?
    ensures Guarded(cmd)
  {
    Command(CommunicationReady, ConditionEvent(v.classification).value, "read_only_system_verifier",
            "S2-ACTOR-SYSTEM-VERIFIER", p.revision, p.head, id,
            map[RecommendationId := recommendation, VerificationId := v.recordId],
            ConditionNoted(v.classification, v.milestone, OfVerification(v)), 0)
  }

  class GuardedRecoveryOrchestrator {
    const workspace: Workspace.FileRecoveryWorkspace
    const adapter: Adapter.LocalSimulatedActionAdapter
    var actions: map<string, Action>
    var verifications: map<string, Verification>
    var communications: map<string, Communication>
    var closures: map<string, Digest>

    ghost function Now(): World
      reads this, workspace, adapter
    {
      World(workspace.files, adapter.files, verifications)
    }

    ghost predicate Valid()
      reads this, workspace, adapter
    {
      adapter.workspace == workspace && SystemInv(workspace.manifest, Now())
    }

    constructor (adapter: Adapter.LocalSimulatedActionAdapter)
      requires SystemInv(adapter.workspace.manifest, World(adapter.workspace.files, adapter.files, map[]))
      ensures Valid() && this.adapter == adapter && workspace == adapter.workspace && verifications == map[]
    {
      hide SystemInv;
      this.adapter := adapter;
      workspace := adapter.workspace;
      actions, verifications, communications, closures := map[], map[], map[], map[];
    }

    // ---- single steps of the system ----

    method AppendGuarded(cmd: Command) returns (r: Result<Projection>)
      requires Valid() && Guarded(cmd)
      modifies workspace
      ensures Valid() && Evolves(old(Now()), Now())
      ensures (workspace.files, r) == AppendRun(workspace.manifest, old(workspace.files), cmd, old(workspace.power))
      ensures old(PreparedAgainst(workspace.manifest, workspace.files, cmd))
              ==> AppendOutcome(workspace.manifest, old(workspace.files), workspace.files, cmd, r)
    {
      hide SystemInv, Evolves, AppendRun, LedgerInvariant.LedgerInv, LedgerInvariant.Grows, LedgerInvariant.Extends,
           Current, Recorded, LedgerInvariant.Committed;
      GuardedAppendKeeps(workspace.manifest, Now(), cmd, workspace.power);
      if PreparedAgainst(workspace.manifest, workspace.files, cmd) {
        SystemParts(workspace.manifest, Now());
        CurrentAppendRecords(workspace.manifest, workspace.files, cmd, workspace.power);
      }
      r := workspace.AppendTransition(cmd);
    }

    method ExecuteThroughAdapter(a: Action, fault: EffectScripts.Fault) returns (r: Result<Receipt>)
      requires Valid()
      modifies workspace`power, adapter`files
      ensures Valid() && Evolves(old(Now()), Now())
      ensures r.Ok? ==> ValidAction(a) && a.terms.actionId in adapter.files.receipts
                        && adapter.files.receipts[a.terms.actionId] == r.value && r.value.contract == a.contract
    {
      hide SystemInv, Evolves, LedgerInvariant.LedgerInv, EffectJournals.EffectInv, EffectScripts.ViewOf,
           EffectScripts.ExecutePlan, EffectScripts.Follows, EffectJournals.ReservedExactly, Adapter.Blocked,
           ValidAction;
      SystemParts(workspace.manifest, Now());
      ghost var w, events := Now(), LedgerInvariant.Committed(workspace.files);
      r := adapter.Execute(a, fault);
      if ValidAction(a) && r != Err(Integrity)
         && EffectScripts.Follows(EffectScripts.ViewOf(w.effects), a,
                                  EffectScripts.ExecutePlan(EffectScripts.ViewOf(w.effects),
                                                            EffectJournals.ReservedExactly(events, a), a, fault),
                                  EffectScripts.ViewOf(adapter.files), r) {
        assert SystemRuns.FollowedPlan(events, EffectScripts.ViewOf(w.effects), a, fault,
                                       EffectScripts.ViewOf(adapter.files));
        if r.Ok? {
          EffectScripts.OkMeansStored(EffectScripts.ViewOf(w.effects), EffectJournals.ReservedExactly(events, a), a,
                                      fault,
                                      EffectScripts.ViewOf(adapter.files), r);
          EffectScripts.ViewFields(adapter.files);
        }
      }
      Adapter.AttemptsHold(events, adapter.files);
      SystemRuns.ExecuteKeeps(workspace.manifest, w, a, fault, adapter.files);
    }

    /** One write-once artifact: refused if the name is taken, absent if the process dies. */
    method StoreVerification(v: Verification) returns (r: Result<bool>)
      requires Valid() && CheckHolds(LedgerInvariant.Committed(workspace.files), adapter.files, v)
      modifies this`verifications, workspace`power
      ensures Valid() && Evolves(old(Now()), Now())
      ensures r.Ok? ==> v.recordId !in old(verifications) && verifications == old(verifications)[v.recordId := v]
      ensures r.Err? ==> verifications == old(verifications)
    {
      hide SystemInv, Evolves, CheckHolds, LedgerInvariant.Committed;
      if v.recordId in verifications {
        SystemRuns.EvolvesSelf(Now());
        return Err(Integrity);
      }
      CheckStored(workspace.manifest, Now(), v);
      var alive := workspace.Spend();
      if !alive {
        SystemRuns.EvolvesSelf(Now());
        return Err(Crash);
      }
      verifications := verifications[v.recordId := v];
      return Ok(true);
    }

    /** `reserve_action_atomically`: the exact contract, then the workspace's own reservation. */
    method ReserveExactAction(a: Action, authority: Authority, commandId: CommandId) returns (r: Result<Projection>)
      requires Valid()
      modifies workspace
      ensures Valid() && Evolves(old(Now()), Now())
      ensures !ValidAction(a) ==> r == Err(Control) && workspace.files == old(workspace.files)
      ensures ValidAction(a) ==> (workspace.files, r) == ReserveRun(workspace.manifest, old(workspace.files), a,
                                                                    authority, commandId, old(workspace.power))
      ensures WriterRules.GainedOne(old(workspace.files), workspace.files)
              ==> && old(WriterRules.MayReserve(workspace.manifest, workspace.files, a, authority, commandId))
                  && WriterRules.SaysReserved(WriterRules.Newest(workspace.files), a, authority, commandId)
      ensures r.Ok? || WriterRules.GainedOne(old(workspace.files), workspace.files) ==> Authorises(authority, a.terms)
    {
      hide SystemInv, Evolves, ReserveRun, LedgerInvariant.LedgerInv, LedgerInvariant.Grows,
           LedgerHistory.ReservationsDistinct, ValidAction, WriterRules.MayReserve, WriterRules.SaysReserved,
           LedgerInvariant.Committed;
      if ValidAction(a) {
        SystemParts(workspace.manifest, Now());
        WriterRules.ReserveWritesExactly(workspace.manifest, workspace.files, a, authority, commandId,
                                         workspace.power);
        if WriterRules.MayReserve(workspace.manifest, workspace.files, a, authority, commandId) {
          WriterRules.GrantedToReserve(workspace.manifest, workspace.files, a, authority, commandId);
        }
        GrantAuthorises(authority, a);
      }
      if !ValidAction(a) {
        SystemRuns.EvolvesSelf(Now());
        return Err(Control);
      }
      ReserveCallKeeps(workspace.manifest, Now(), a, authority, commandId, workspace.power);
      r := workspace.ReserveAction(a, authority, commandId);
    }

    // ---- the active action ----

    /** `_active_action`. */
    method ActiveAction() returns (r: Result<Action>)
      ensures r.Ok? ==> var p := Current(workspace.manifest, workspace.files);
                        && p.Ok? && ActionId in p.value.active && p.value.active[ActionId] == r.value.recordId
                        && r.value.recordId in actions && actions[r.value.recordId] == r.value
                        && r.value.terms.caseId == p.value.caseId && r.value.terms.caseRevision == p.value.revision
    {
      hide Current;
      var current := workspace.Replay();
      if current.Err? {
        return Err(current.error);
      }
      if ActionId !in current.value.active {
        return Err(Control);
      }
      var id := current.value.active[ActionId];
      if id !in actions || actions[id].recordId != id {
        return Err(Control);
      }
      var a := actions[id];
      if a.terms.caseId != current.value.caseId || a.terms.caseRevision != current.value.revision {
        return Err(Control);
      }
      return Ok(a);
    }

    /** `execute_active_action`. */
    method ExecuteActiveAction(startId: CommandId, outcomeId: CommandId,
                               fault: EffectScripts.Fault) returns (r: Result<Receipt>)
      requires Valid()
      modifies workspace, adapter`files
      ensures Valid() && Evolves(old(Now()), Now())
      ensures adapter.files != old(adapter.files)
              ==> exists a :: a in actions.Values && Engaged(workspace.manifest, old(workspace.files), workspace.files,
                                                             a)
      ensures r.Ok? ==> ReceiptReported(workspace.files, adapter.files, r.value)
    {
      hide SystemInv, Evolves, Current, ValidAction, Engaged, ReceiptReported;
      var active := ActiveAction();
      if active.Err? {
        SystemRuns.EvolvesSelf(Now());
        return Err(active.error);
      }
      assert active.value in actions.Values;
      r := RecordActionExecution(active.value, startId, outcomeId, fault);
    }

    /** `_record_action_execution`: announce, execute, and record what is known afterwards. */
    method RecordActionExecution(a: Action, startId: CommandId, outcomeId: CommandId, fault: EffectScripts.Fault)
      returns (r: Result<Receipt>)
      requires Valid()
      modifies workspace, adapter`files
      ensures Valid() && Evolves(old(Now()), Now())
      ensures adapter.files != old(adapter.files) ==> Engaged(workspace.manifest, old(workspace.files),
                                                              workspace.files, a)
      ensures r.Ok? ==> ReceiptReported(workspace.files, adapter.files, r.value) && r.value.contract == a.contract
    {
      hide SystemInv, Evolves, Current, AppendRun, LedgerInvariant.Committed, Recorded, ReceiptReported, Announced;
      ghost var w0 := Now();
      SystemRuns.EvolvesSelf(w0);
      var current := workspace.Replay();
      if current.Err? {
        return Err(current.error);
      }
      if !BindsAction(current.value, a) {
        return Err(Control);
      }
      var reserved := current.value.state == ActionReserved;
      if reserved {
        ghost var cmd := StartCommand(current.value, a, startId);
        current := AppendGuarded(StartCommand(current.value, a, startId));
        if current.Err? {
          return Err(current.error);
        }
        RecordedAnnounces(w0.ledger, workspace.files, a, cmd);
      } else if current.value.state != ActionRecovery {
        return Err(Control);
      }
      ghost var w1 := Now();
      r := ExecuteThroughAdapter(a, fault);
      SystemRuns.EvolvesFurther(w0, w1, Now());
      ghost var w2 := Now();
      if r != Err(Crash) {
        var outcome := RecordOutcome(a, r, outcomeId);
        SystemRuns.EvolvesFurther(w0, w2, Now());
        EvolvesPrefix(w2, Now());
        if r.Ok? && outcome.Ok? {
          ReceiptStillBinds(workspace.manifest, Now(), a, r.value);
        }
        r := if outcome.Err? then Err(outcome.error) else r;
      }
      if reserved {
        AnnouncedStays(LedgerInvariant.Committed(w0.ledger), LedgerInvariant.Committed(w1.ledger),
                       LedgerInvariant.Committed(workspace.files), a);
      }
    }

    /** The event after the adapter call: the receipt, or the unknown outcome. */
    method RecordOutcome(a: Action, receipt: Result<Receipt>, outcomeId: CommandId) returns (r: Result<bool>)
      requires Valid()
      modifies workspace
      ensures Valid() && Evolves(old(Now()), Now())
      ensures r.Ok? && receipt.Ok?
              ==> EndsWith(workspace.files, AdapterReceiptRecorded, Verifying,
                           map[ActionId := a.recordId, ReceiptId := ReceiptRecordId(receipt.value.actionId)],
                           ReceiptNoted(a.contract, OfReceipt(receipt.value), receipt.value.reconciled))
      ensures r.Ok? && receipt.Err? ==> InRecovery(workspace.manifest, old(workspace.files), workspace.files)
    {
      hide SystemInv, Evolves, Current, AppendRun, LedgerInvariant.Committed, Recorded, EndsWith;
      SystemRuns.EvolvesSelf(Now());
      ghost var f := workspace.files;
      var latest := workspace.Replay();
      if latest.Err? {
        return Err(latest.error);
      }
      if receipt.Err? {
        if latest.value.state == ActionPending {
          latest := AppendGuarded(UnknownCommand(latest.value, a, outcomeId));
        }
      } else if latest.value.state !in {ActionPending, ActionRecovery} {
        return Err(Control);
      } else {
        ghost var cmd := ReceiptCommand(latest.value, a, receipt.value, outcomeId);
        latest := AppendGuarded(ReceiptCommand(latest.value, a, receipt.value, outcomeId));
        if latest.Ok? {
          RecordedLast(f, workspace.files, cmd);
        }
      }
      return if latest.Ok? then Ok(true) else Err(latest.error);
    }

    // ---- verification ----

    /** `verify_active_action`: behind one linked and binding receipt, re-derive the verdict from the sources. */
    method VerifyActiveAction(verificationId: string, commandId: CommandId) returns (r: Result<Verification>)
      requires Valid()
      modifies this`verifications, workspace
      ensures Valid() && Evolves(old(Now()), Now())
      ensures r.Ok? ==> VerdictRecorded(workspace.files, adapter.files, r.value)
                        && r.value.recordId in verifications && verifications[r.value.recordId] == r.value
      ensures r.Ok? ==> ChecksActive(workspace.manifest, old(workspace.files), actions, r.value)
    {
      hide SystemInv, Evolves, Current, LedgerInvariant.Committed, VerdictRecorded, CheckHolds, SoleReceiptLink,
           ValidAction, EffectScripts.ViewOf, EffectJournals.LogsInv, Verifier.VerificationFrom, ReceiptLinks,
           ReceiptRecordId, AllValid, MarkersBind, LedgerInvariant.LedgerInv;
      ghost var w0 := Now();
      SystemRuns.EvolvesSelf(w0);
      var active := ActiveAction();
      if active.Err? {
        return Err(active.error);
      }
      var a := active.value;
      var read := workspace.ReadEvents();
      if read.Err? {
        return Err(read.error);
      }
      var links := ReceiptLinks(read.value, a.recordId);
      if |links| != 1 || a.recordId !in adapter.files.receipts {
        return Err(Control);
      }
      var receipt := adapter.files.receipts[a.recordId];
      if ReceiptRecordId(receipt.actionId) != links[0] || receipt.actionId != a.recordId
         || receipt.contract != a.contract {
        return Err(Control);
      }
      var v, seen := Verifier.VerifyAuthoritativePostcondition(a, adapter.files, verificationId, true);
      if v.Err? {
        return Err(v.error);
      }
      VerdictMade(workspace.manifest, w0, a, verificationId);
      Verifier.VerdictIsReadOffSources(a, EffectScripts.ViewOf(w0.effects).effects, verificationId, true);
      hide Verifier.ProvenBy;
      ValidNamesItself(a);
      ghost var i := OneReceiptLink(read.value, a.recordId);
      assert SoleReceiptLink(w0.ledger.journal.records, a.recordId, links[0], i);
      var stored := StoreVerification(v.value);
      if stored.Err? {
        return Err(stored.error);
      }
      ghost var w1 := Now();
      var recorded := RecordVerification(v.value, commandId);
      SystemRuns.EvolvesFurther(w0, w1, Now());
      if recorded.Err? {
        return Err(recorded.error);
      }
      return v;
    }

    /** `_record_verification`: bind the check to the active action, then advance to its classification. */
    method RecordVerification(v: Verification, commandId: CommandId) returns (r: Result<Projection>)
      requires Valid() && v.recordId in verifications && verifications[v.recordId] == v
      modifies workspace
      ensures Valid() && Evolves(old(Now()), Now())
      ensures r.Ok? ==> VerdictRecorded(workspace.files, adapter.files, v)
    {
      hide SystemInv, Evolves, Current, AppendRun, LedgerInvariant.Committed, Recorded, LedgerInvariant.LedgerInv,
           VerdictRecorded, LedgerInvariant.Grows, CheckHolds;
      ghost var w0 := Now();
      SystemRuns.EvolvesSelf(w0);
      if !v.RemedyCheck? || v.classification !in {RemedyVerified, VerificationFailure} {
        return Err(Control);
      }
      r := workspace.Replay();
      if r.Err? {
        return;
      }
      var current := r.value;
      if current.state != Verifying {
        return Err(Control);
      }
      if v.caseId != current.caseId || v.caseRevision != current.revision
         || ActionId !in current.active || v.actionId != current.active[ActionId] {
        return Err(Control);
      }
      if !MilestoneFits(v) {
        return Err(Control);
      }
      ghost var cmd := RecordCommand(v, current, commandId);
      SystemRuns.RecordStepKeeps(workspace.manifest, w0, v.recordId, current, commandId, workspace.power);
      SystemParts(workspace.manifest, w0);
      CurrentAppendRecords(workspace.manifest, workspace.files, cmd, workspace.power);
      r := workspace.AppendTransition(RecordCommand(v, current, commandId));
      if r.Ok? {
        RecordedLast(w0.ledger, workspace.files, cmd);
        StoredCheckHolds(workspace.manifest, Now(), v);
      }
    }

    /** `verify_direct_no_action`: the condition policy re-derives now, if it is the one recorded. */
    method VerifyDirectNoAction(verificationId: string, commandId: CommandId, facts: Policy.Facts,
                                cited: seq<(Policy.SourceName, string)>) returns (r: Result<Verification>)
      requires Valid()
      modifies this`verifications, workspace
      ensures Valid() && Evolves(old(Now()), Now())
      ensures r.Ok? ==> ConditionRecorded(workspace.manifest, old(workspace.files), workspace.files, facts, cited,
                                          r.value)
    {
      hide SystemInv, Evolves, Current, AppendRun, LedgerInvariant.Committed, Recorded, EndsWith, Policy.Decide,
           RecommendationsFor, Citations, RestsOn, ConditionFor, SoleRecommendation, AllValid, MarkersBind,
           LedgerInvariant.LedgerInv;
      ghost var w0 := Now();
      SystemRuns.EvolvesSelf(w0);
      var context := workspace.Replay();
      if context.Err? {
        return Err(context.error);
      }
      var p := context.value;
      if p.state != RecommendationReady {
        return Err(Control);
      }
      var decision := Policy.Decide(facts);
      if decision.Err? {
        return Err(decision.error);
      }
      var condition := ConditionFor(decision.value);
      if condition.None? {
        return Err(Control);
      }
      var read := workspace.ReadEvents();
      if read.Err? {
        return Err(read.error);
      }
      var recorded := RecommendationsFor(read.value, LinkAt(p.active, RecommendationId));
      if |recorded| != 1 || !recorded[0].Recommended? || recorded[0].governed.decision != decision.value {
        return Err(Control);
      }
      var citations := Citations(cited, condition.value.2);
      if |citations| != |condition.value.2| {
        return Err(Control);
      }
      var v := ConditionCheck(verificationId, p.caseId, p.revision, condition.value.0, condition.value.1, citations);
      DirectDecisionRests(facts, v, cited);
      DirectIsDirect(decision.value, v);
      var stored := StoreVerification(v);
      if stored.Err? {
        return Err(stored.error);
      }
      ghost var w1 := Now();
      var appended := RecordNoActionVerification(v, commandId);
      SystemRuns.EvolvesFurther(w0, w1, Now());
      if appended.Err? {
        return Err(appended.error);
      }
      ghost var i := OneRecommendation(read.value, p.active[RecommendationId]);
      assert SoleRecommendation(w0.ledger.journal.records, p.active[RecommendationId], i);
      return Ok(v);
    }

    /** `_record_no_action_verification`: bind one direct condition before any message. */
    method RecordNoActionVerification(v: Verification, commandId: CommandId) returns (r: Result<Projection>)
      requires Valid()
      modifies workspace
      ensures Valid() && Evolves(old(Now()), Now())
      ensures r.Ok? ==> ConditionAppended(workspace.manifest, old(workspace.files), workspace.files, v)
    {
      hide SystemInv, Evolves, Current, AppendRun, LedgerInvariant.Committed, Recorded, EndsWith;
      ghost var w := Now();
      SystemRuns.EvolvesSelf(w);
      r := workspace.Replay();
      if r.Err? {
        return;
      }
      var p := r.value;
      if p.state != RecommendationReady || !v.ConditionCheck? || ConditionEvent(v.classification).None? {
        return Err(Control);
      }
      if v.caseId != p.caseId || v.caseRevision != p.revision || ActionId in p.active || v.citations == [] {
        return Err(Control);
      }
      if RecommendationId !in p.active {
        return Err(Control);
      }
      ghost var cmd := ConditionCommand(p, v, p.active[RecommendationId], commandId);
      r := AppendGuarded(ConditionCommand(p, v, p.active[RecommendationId], commandId));
      if r.Ok? {
        RecordedLast(w.ledger, workspace.files, cmd);
      }
    }

    // ---- communication and closure ----

    method StoreCommunication(c: Communication) returns (r: Result<bool>)
      requires Valid()
      modifies this`communications, workspace`power
      ensures Valid() && Now() == old(Now())
      ensures r.Ok? ==> c.recordId !in old(communications) && communications == old(communications)[c.recordId := c]
      ensures r.Err? ==> communications == old(communications)
    {
      hide SystemInv;
      if c.recordId in communications {
        return Err(Integrity);
      }
      var alive := workspace.Spend();
      if !alive {
        return Err(Crash);
      }
      communications := communications[c.recordId := c];
      return Ok(true);
    }

    /** `communicate_active_verification`: one unsent message, saying only what the active verification supports. */
    method CommunicateActiveVerification(communicationId: string, commandId: CommandId, eta: Option<string>)
      returns (r: Result<Communication>)
      requires Valid()
      modifies this`communications, workspace
      ensures Valid() && Evolves(old(Now()), Now())
      ensures r.Ok? ==> MessageRecorded(workspace.manifest, old(workspace.files), workspace.files, adapter.files,
                                        verifications, r.value)
                        && r.value.recordId in communications && communications[r.value.recordId] == r.value
    {
      hide SystemInv, Evolves, Current, AppendRun, LedgerInvariant.Committed, Recorded, EndsWith, FactOf,
           MessageAppended, StatesOnly, SystemRuns.RemedyStands;
      ghost var w0 := Now();
      SystemRuns.EvolvesSelf(w0);
      var context := workspace.Replay();
      if context.Err? {
        return Err(context.error);
      }
      var p := context.value;
      if VerificationId !in p.active {
        return Err(Control);
      }
      var id := p.active[VerificationId];
      if id !in verifications || verifications[id].recordId != id {
        return Err(Control);
      }
      var v := verifications[id];
      var fact := FactOf(v);
      if fact.None? || (fact.value == EtaEstimate && eta.None?) {
        return Err(Control);
      }
      var c := MessageFor(p, v, fact.value, communicationId, eta);
      StoredCheckStates(workspace.manifest, w0, id, p, communicationId, eta);
      var stored := StoreCommunication(c);
      if stored.Err? {
        return Err(stored.error);
      }
      ghost var w1 := Now();
      var recorded := RecordCommunication(c, v, commandId);
      SystemRuns.EvolvesFurther(w0, w1, Now());
      return if recorded.Ok? then Ok(c) else Err(recorded.error);
    }

    /** `_record_communication`: one unsent artifact, derived from the active verification. */
    method RecordCommunication(c: Communication, v: Verification, commandId: CommandId) returns (r: Result<Projection>)
      requires Valid()
      modifies workspace
      ensures Valid() && Evolves(old(Now()), Now())
      ensures r.Ok? ==> MessageAppended(workspace.manifest, old(workspace.files), workspace.files, v, c)
    {
      hide SystemInv, Evolves, Current, AppendRun, LedgerInvariant.Committed, Recorded, EndsWith;
      ghost var w := Now();
      SystemRuns.EvolvesSelf(w);
      if !c.unsent || c.sendCapability {
        return Err(Control);
      }
      r := workspace.Replay();
      if r.Err? {
        return;
      }
      var p := r.value;
      if p.state !in {VerifiedRemedy, CommunicationReady} || !Derives(p, v, c) {
        return Err(Control);
      }
      if c.actionCount != (if c.classification == RemedyVerified then 1 else 0) {
        return Err(Control);
      }
      ghost var cmd := CommunicationCommand(p, v, c, commandId);
      r := AppendGuarded(CommunicationCommand(p, v, c, commandId));
      if r.Ok? {
        RecordedLast(w.ledger, workspace.files, cmd);
      }
    }

    /** `close`: only on the active verification and the message derived from it. */
    method Close(closureId: string, commandId: CommandId) returns (r: Result<Projection>)
      requires Valid()
      modifies this`closures, workspace
      ensures Valid() && Evolves(old(Now()), Now())
      ensures r.Ok? ==> ClosureRecorded(workspace.manifest, old(workspace.files), workspace.files, verifications,
                                        communications,
                                        closureId)
      ensures LedgerInvariant.Committed(workspace.files) == old(LedgerInvariant.Committed(workspace.files))
              || ClosureRecorded(workspace.manifest, old(workspace.files), workspace.files, verifications,
                                 communications,
                                 closureId)
    {
      hide SystemInv, Evolves, Current, AppendRun, LedgerInvariant.Committed, Recorded, EndsWith;
      ghost var w0 := Now();
      SystemRuns.EvolvesSelf(w0);
      r := workspace.Replay();
      if r.Err? {
        return;
      }
      var p := r.value;
      if VerificationId !in p.active || CommunicationId !in p.active {
        return Err(Control);
      }
      var vid, cid := p.active[VerificationId], p.active[CommunicationId];
      if vid !in verifications || verifications[vid].recordId != vid
         || cid !in communications || communications[cid].recordId != cid {
        return Err(Control);
      }
      var v, c := verifications[vid], communications[cid];
      if p.state != CommunicationReady || !Derives(p, v, c) || !c.unsent || c.sendCapability {
        return Err(Control);
      }
      ghost var cmd := CloseCommand(p, v, c, closureId, commandId);
      r := AppendGuarded(CloseCommand(p, v, c, closureId, commandId));
      if Recorded(w0.ledger, workspace.files, cmd) {
        RecordedLast(w0.ledger, workspace.files, cmd);
        assert ClosureCites(p, workspace.files, v, c, closureId);
      }
      if r.Err? {
        return;
      }
      if closureId in closures {
        return Err(Integrity);
      }
      var alive := workspace.Spend();
      if !alive {
        return Err(Crash);
      }
      closures := closures[closureId := r.value.head];
    }
  }

  /** The ledger ends with this check's verdict, and the verdict is right. */
  ghost predicate VerdictRecorded(f: Files, effects: EffectJournals.EffectFiles, v: Verification) {
    && v.RemedyCheck? && v.classification == RemedyVerified
    && v.contract.OfContract? && v.actionId == v.contract.terms.actionId
    && EndsWith(f, AuthoritativeRemedyVerified, VerifiedRemedy,
                map[ActionId := v.actionId, VerificationId := v.recordId],
                VerificationNoted(v.contract, v.evidence, v.classification, v.milestone, OfVerification(v)))
    && v.milestone == (if v.contract.terms.operation == Refund then RefundCommittedExact
                       else ReplacementCreatedReservedAccepted)
    && SystemRuns.RemedyStands(effects, v.contract.terms)
    && Verifier.EvidenceStands(effects, ActionOf(v.contract), v.evidence)
    && Verifier.Owns(LedgerInvariant.Committed(f), ActionOf(v.contract))
  }

  lemma ValidNamesItself(a: Action)
    requires ValidAction(a)
    ensures a.recordId == a.terms.actionId
  {
  }

  /** The check is of the active action under its own contract, which exactly one event reported a receipt for. */
  ghost predicate ChecksActive(m: Manifest, f: Files, actions: map<string, Action>, v: Verification) {
    && v.RemedyCheck? && Current(m, f).Ok?
    && var p := Current(m, f).value;
    && ActionId in p.active && v.actionId == p.active[ActionId]
    && v.caseId == p.caseId && v.caseRevision == p.revision
    && v.actionId in actions && v.contract == actions[v.actionId].contract
    && exists i: nat :: SoleReceiptLink(f.journal.records, v.actionId, ReceiptRecordId(v.actionId), i)
  }

  lemma StoredCheckHolds(m: Manifest, w: World, v: Verification)
    requires SystemInv(m, w) && v.recordId in w.verifications && w.verifications[v.recordId] == v && v.RemedyCheck?
    requires EndsWith(w.ledger,
                      if v.classification
                         == RemedyVerified then AuthoritativeRemedyVerified else AuthoritativeVerificationFailed,
                      if v.classification == RemedyVerified then VerifiedRemedy else VerificationFailed,
                      map[ActionId := v.actionId, VerificationId := v.recordId],
                      VerificationNoted(v.contract, v.evidence, v.classification, v.milestone, OfVerification(v)))
    ensures VerdictRecorded(w.ledger, w.effects, v)
  {
    hide LedgerInvariant.LedgerInv, EffectJournals.EffectInv, LedgerInvariant.Committed, VerdictsHold, AllWellEntered,
         LedgerHistory.ReservationsDistinct, Verifier.Owns, Verifier.EvidenceStands, SystemRuns.RemedyStands;
    assert CheckHolds(LedgerInvariant.Committed(w.ledger), w.effects, w.verifications[v.recordId]);
    SystemRuns.EvidenceShows(w.effects, v.contract, v.evidence);
  }

  lemma VerdictMade(m: Manifest, w: World, a: Action, id: string)
    requires SystemInv(m, w) && a.recordId in w.effects.receipts
             && w.effects.receipts[a.recordId].actionId == a.recordId
    requires w.effects.receipts[a.recordId].contract == a.contract && ValidAction(a)
    ensures EffectJournals.LogsInv(w.effects.logs)
    ensures CheckHolds(LedgerInvariant.Committed(w.ledger), w.effects,
                       Verifier.VerificationFrom(a, EffectScripts.ViewOf(w.effects).effects, id, true))
  {
    hide SystemInv, CheckHolds, LedgerInvariant.Committed, EffectScripts.ViewOf, EffectJournals.LogsInv,
         EffectJournals.AttemptInv, EffectJournals.AllBacked, EffectJournals.OneActionPerRemedy,
         EffectJournals.ReceiptsBacked, LedgerInvariant.LedgerInv;
    SystemParts(m, w);
    CheckMadeHolds(LedgerInvariant.Committed(w.ledger), w.effects, a, id);
  }

  /** The message repeats what the check found in this case and revision, cites it, and can reach nobody. */
  predicate Repeats(p: Projection, v: Verification, c: Communication) {
    && VerificationId in p.active && v.recordId == p.active[VerificationId] && c.citation == p.active[VerificationId]
    && p.caseId == v.caseId == c.caseId && p.revision == v.caseRevision == c.caseRevision
    && v.classification == c.classification && v.milestone == c.milestone
    && c.unsent && !c.sendCapability
  }

  /** The ledger ends with an unsent message derived from the verification active before the call. */
  ghost predicate MessageAppended(m: Manifest, f: Files, g: Files, v: Verification, c: Communication) {
    && Current(m, f).Ok?
    && var p := Current(m, f).value;
    && (p.state == VerifiedRemedy || p.state == CommunicationReady) && Repeats(p, v, c)
    && c.actionCount == (if v.classification == RemedyVerified then 1 else 0)
    && EndsWith(g, if p.state == VerifiedRemedy then VerifiedCommunicationCreated else CommunicationRecorded,
                CommunicationReady,
                map[CommunicationId := c.recordId, VerificationId := v.recordId],
                CommunicationNoted(c.classification, OfCommunication(c), OfVerification(v)))
  }

  /**
   * The one fact a message may state: that the refund is completed, or the replacement on its way, as the verified
   * contract has it; an estimate, which it then carries; or that nothing new is called for.
   */
  predicate StatesOnly(v: Verification, fact: MessageFact, estimateAt: Option<string>) {
    match v
    case RemedyCheck(_, _, contract, _, _, _, _, _, _, _) =>
      && contract.OfContract? && estimateAt.None?
      && fact == (if contract.terms.operation == Refund then RefundCompleted else ReplacementMilestone)
    case ConditionCheck(_, _, _, classification, _, _) =>
      if classification == WaitCondition then fact == EtaEstimate && estimateAt.Some?
      else fact == NoNewActionRequired && estimateAt.None?
  }

  /** And the message states nothing but what that verification found, which the sources show. */
  ghost predicate MessageRecorded(m: Manifest, f: Files, g: Files, effects: EffectJournals.EffectFiles,
                                  verifications: map<string, Verification>, c: Communication) {
    && c.citation in verifications
    && var v := verifications[c.citation];
    && StatesOnly(v, c.fact, c.estimateAt)
    && (v.RemedyCheck? ==> SystemRuns.RemedyStands(effects, v.contract.terms))
    && MessageAppended(m, f, g, v, c)
  }

  /** A stored check supports exactly one fact, and behind a remedy check the sources show the remedy. */
  lemma StoredCheckStates(m: Manifest, w: World, id: string, p: Projection, messageId: string, eta: Option<string>)
    requires SystemInv(m, w) && id in w.verifications && FactOf(w.verifications[id]).Some?
    requires FactOf(w.verifications[id]).value == EtaEstimate ==> eta.Some?
    ensures var v := w.verifications[id];
            var c := MessageFor(p, v, FactOf(v).value, messageId, eta);
            && StatesOnly(v, c.fact, c.estimateAt)
            && (v.RemedyCheck? ==> SystemRuns.RemedyStands(w.effects, v.contract.terms))
  {
    hide LedgerInvariant.LedgerInv, EffectJournals.EffectInv, LedgerInvariant.Committed, VerdictsHold, AllWellEntered,
         LedgerHistory.ReservationsDistinct, Verifier.Owns, Verifier.EvidenceStands, SystemRuns.RemedyStands;
    var v := w.verifications[id];
    assert CheckHolds(LedgerInvariant.Committed(w.ledger), w.effects, v);
    if v.RemedyCheck? {
      SystemRuns.EvidenceShows(w.effects, v.contract, v.evidence);
    }
  }

  ghost predicate ClosureCites(p: Projection, g: Files, v: Verification, c: Communication, closureId: string) {
    && CommunicationId in p.active && p.active[CommunicationId] == c.recordId && Repeats(p, v, c)
    && p.state == CommunicationReady
    && EndsWith(g, RecoveryWorkflowClosed, Closed,
                map[ClosureId := closureId, CommunicationId := c.recordId, VerificationId := v.recordId],
                ClosureNoted(OfCommunication(c), OfVerification(v)))
  }

  /** The ledger ends with a closure of the verification and the message that were active before the call. */
  ghost predicate ClosureRecorded(m: Manifest, f: Files, g: Files, verifications: map<string, Verification>,
                                  communications: map<string, Communication>, closureId: string) {
    && Current(m, f).Ok?
    && exists v, c :: v in verifications.Values && c in communications.Values
                      && ClosureCites(Current(m, f).value, g, v, c, closureId)
  }

  /** Every prepared directory starts a run, whatever power the preparation had. */
  method PrepareRun(runId: string, batch: Batch, commandId: CommandId, power: Journals.Power)
    returns (o: GuardedRecoveryOrchestrator)
    requires batch.revision >= 1
    ensures o.Valid() && SystemRuns.Prepared(o.workspace.manifest, o.Now())
  {
    hide LedgerInvariant.LedgerInv, EffectJournals.EffectInv, SystemInv, LedgerInvariant.Committed;
    var workspace := new Workspace.FileRecoveryWorkspace.Prepare(runId, batch, commandId, power);
    var adapter := new Adapter.LocalSimulatedActionAdapter(workspace);
    ghost var w := World(workspace.files, adapter.files, map[]);
    assert SystemRuns.Prepared(workspace.manifest, w);
    SystemRuns.PreparedHolds(workspace.manifest, w);
    o := new GuardedRecoveryOrchestrator(adapter);
  }

  /** A successful execution: the receipt is stored under a valid contract and the ledger ends by reporting it. */
  ghost predicate ReceiptReported(f: Files, effects: EffectJournals.EffectFiles, r: Receipt) {
    && r.contract.OfContract? && ValidAction(ActionOf(r.contract)) && ReceiptBinds(effects, ActionOf(r.contract))
    && effects.receipts[ActionOf(r.contract).terms.actionId] == r
    && EndsWith(f, AdapterReceiptRecorded, Verifying, map[ActionId := r.actionId,
                                                          ReceiptId := ReceiptRecordId(r.actionId)],
                ReceiptNoted(r.contract, OfReceipt(r), r.reconciled))
  }

  lemma RecordedAnnounces(f: Files, g: Files, a: Action, cmd: Command)
    requires Recorded(f, g, cmd) && cmd.eventType == ActionEffectStarted && cmd.target == ActionPending
    requires cmd.links == map[ActionId := a.recordId]
    ensures Announced(LedgerInvariant.Committed(f), LedgerInvariant.Committed(g), a)
  {
    hide LedgerInvariant.Committed;
  }

  lemma EvolvesPrefix(w: World, w': World)
    requires Evolves(w, w')
    ensures LedgerInvariant.Committed(w.ledger) <= LedgerInvariant.Committed(w'.ledger)
  {
  }

  /** A stored receipt under a valid contract names its own action. */
  lemma ReceiptStillBinds(m: Manifest, w: World, a: Action, r: Receipt)
    requires SystemInv(m, w) && ValidAction(a)
    requires a.terms.actionId in w.effects.receipts && w.effects.receipts[a.terms.actionId] == r
             && r.contract == a.contract
    requires EndsWith(w.ledger, AdapterReceiptRecorded, Verifying,
                      map[ActionId := a.recordId, ReceiptId := ReceiptRecordId(r.actionId)],
                      ReceiptNoted(a.contract, OfReceipt(r), r.reconciled))
    ensures ReceiptReported(w.ledger, w.effects, r)
  {
    hide LedgerInvariant.LedgerInv, EffectJournals.LogsInv, EffectJournals.AttemptInv, EffectJournals.AllBacked,
         EffectJournals.OneActionPerRemedy, VerdictsHold, ChecksHold, AllWellEntered, EffectJournals.Applied,
         LedgerHistory.ReservationsDistinct, LedgerInvariant.Committed;
    assert EffectJournals.ReceiptBacked(LedgerInvariant.Committed(w.ledger), w.effects, a.terms.actionId, r);
    assert ActionOf(r.contract) == a;
  }

  /** The ledger ends with this zero-action condition, on a recommendation with no action active. */
  ghost predicate ConditionAppended(m: Manifest, f: Files, g: Files, v: Verification) {
    && Current(m, f).Ok? && v.ConditionCheck? && v.citations != []
    && (v.classification == WaitCondition || v.classification == NoNewActionCondition)
    && var p := Current(m, f).value;
    && p.state == RecommendationReady && ActionId !in p.active && RecommendationId in p.active
    && v.caseId == p.caseId && v.caseRevision == p.revision
    && EndsWith(g, if v.classification == WaitCondition then VerifiedWaitCondition else VerifiedNoNewAction,
                CommunicationReady,
                map[RecommendationId := p.active[RecommendationId], VerificationId := v.recordId],
                ConditionNoted(v.classification, v.milestone, OfVerification(v)))
  }

  /** These facts call for a wait: the customer chose it, and its sources are fresh and give a reliable estimate. */
  predicate CallForWait(facts: Policy.Facts) {
    && Policy.Open(facts) && facts.choice == Some(Some(Policy.Wait)) && facts.reliableEta
    && {Policy.Carrier, Policy.Crm, Policy.PolicySource} <= facts.current
  }

  /** These facts call for nothing new: a covering remedy, a duplicate signal, or no eligible quantity left. */
  predicate CallForNothing(facts: Policy.Facts) {
    && facts.policyIsFrozenOne && !facts.activeChargeback && facts.riskFlags == []
    && (|| facts.priorRemedyCoversQuantity
        || (!facts.unresolvedAction && !facts.sourceConflict && facts.duplicateSignal)
        || (Policy.MayMove(facts) && facts.remaining == 0))
  }

  /** The condition follows from the facts alone, and is cited from the three sources it rests on. */
  ghost predicate RestsOn(v: Verification, facts: Policy.Facts, cited: seq<(Policy.SourceName, string)>)
    requires v.ConditionCheck?
  {
    if v.classification == WaitCondition then
      && v.milestone == CurrentReliableEta && CallForWait(facts)
      && CitedFrom(v.citations, cited, {Policy.Carrier, Policy.Crm, Policy.PolicySource})
    else
      && v.milestone == PriorRemedyCoversQuantity && CallForNothing(facts)
      && CitedFrom(v.citations, cited, {Policy.Oms, Policy.Payment, Policy.PolicySource})
  }

  /** Three citations: the records cited from these sources, all of them and no others. */
  ghost predicate CitedFrom(citations: seq<string>, cited: seq<(Policy.SourceName, string)>,
                            sources: set<Policy.SourceName>)
  {
    && |citations| == 3
    && forall id :: id in citations <==> exists j :: 0 <= j < |cited| && cited[j].0 in sources && cited[j].1 == id
  }

  lemma {:induction false} CitationsCite(cited: seq<(Policy.SourceName, string)>, sources: set<Policy.SourceName>,
                                         id: string)
    ensures id in Citations(cited, sources)
            <==> exists j :: 0 <= j < |cited| && cited[j].0 in sources && cited[j].1 == id
  {
    if cited != [] {
      CitationsCite(cited[1..], sources, id);
      assert forall j :: 1 <= j < |cited| ==> cited[j] == cited[1..][j - 1];
      assert forall j :: 0 <= j < |cited[1..]| ==> cited[1..][j] == cited[j + 1];
    }
  }

  /** What policy decides directly is what these facts call for. */
  lemma DirectDecisionRests(facts: Policy.Facts, v: Verification, cited: seq<(Policy.SourceName, string)>)
    requires Policy.Decide(facts).Ok? && v.ConditionCheck?
    requires var condition := ConditionFor(Policy.Decide(facts).value);
             && condition.Some? && v.classification == condition.value.0 && v.milestone == condition.value.1
             && v.citations == Citations(cited, condition.value.2) && |v.citations| == |condition.value.2|
    ensures RestsOn(v, facts, cited)
    ensures v.classification == WaitCondition || v.classification == NoNewActionCondition
  {
    hide Policy.Decide;
    Policy.WaitAndNothingExactly(facts);
    forall id
      ensures id in v.citations
              <==> exists j :: 0 <= j < |cited| && cited[j].0 in ConditionFor(Policy.Decide(facts).value).value.2
                               && cited[j].1 == id
    {
      CitationsCite(cited, ConditionFor(Policy.Decide(facts).value).value.2, id);
    }
    ThreeSources();
  }

  lemma DirectIsDirect(d: Policy.PolicyDecision, v: Verification)
    requires v.ConditionCheck? && ConditionFor(d).Some?
    requires v.classification == ConditionFor(d).value.0 && v.milestone == ConditionFor(d).value.1
    ensures IsDirectCheck(v)
  {
  }

  lemma ThreeSources()
    ensures |{Policy.Carrier, Policy.Crm, Policy.PolicySource}| == 3
    ensures |{Policy.Oms, Policy.Payment, Policy.PolicySource}| == 3
  {
  }

  predicate Recommends(e: Event, id: string) {
    && e.body.eventType == RecommendationRecorded
    && RecommendationId in e.body.links && e.body.links[RecommendationId] == id
  }

  ghost predicate SoleRecommendation(events: seq<Event>, id: string, i: nat) {
    && i < |events| && Recommends(events[i], id)
    && forall j :: 0 <= j < |events| && Recommends(events[j], id) ==> j == i
  }

  lemma {:induction false} NoRecommendation(events: seq<Event>, id: string)
    ensures RecommendationsFor(events, Some(id)) == []
            <==> forall j :: 0 <= j < |events| ==> !Recommends(events[j], id)
  {
    if events != [] {
      NoRecommendation(events[1..], id);
      assert forall j :: 1 <= j < |events| ==> events[j] == events[1..][j - 1];
      assert forall j :: 0 <= j < |events[1..]| ==> events[1..][j] == events[j + 1];
    }
  }

  lemma {:induction false} OneRecommendation(events: seq<Event>, id: string) returns (i: nat)
    requires |RecommendationsFor(events, Some(id))| == 1
    ensures SoleRecommendation(events, id, i) && RecommendationsFor(events, Some(id)) == [events[i].body.decision]
  {
    var rest := events[1..];
    assert forall j :: 1 <= j < |events| ==> events[j] == rest[j - 1];
    if Recommends(events[0], id) {
      NoRecommendation(rest, id);
      i := 0;
    } else {
      i := OneRecommendation(rest, id);
      i := i + 1;
    }
  }

  /**
   * It is the condition these facts call for, and the one recommendation on record under the active ID decided it on
   * the same terms.
   */
  ghost predicate ConditionRecorded(m: Manifest, f: Files, g: Files, facts: Policy.Facts,
                                    cited: seq<(Policy.SourceName, string)>, v: Verification) {
    && ConditionAppended(m, f, g, v) && RestsOn(v, facts, cited)
    && exists i: nat ::
         && SoleRecommendation(f.journal.records, Current(m, f).value.active[RecommendationId], i)
         && f.journal.records[i].body.decision.Recommended?
         && Policy.Decide(facts) == Ok(f.journal.records[i].body.decision.governed.decision)
  }

  /**
   * Revision isolation of closure: the verification and the message a closure cites were both linked by earlier
   * events of the same source revision.
   */
  lemma ClosureCitesThisRevision(m: Manifest, f: Files, g: Files, verifications: map<string, Verification>,
                                 communications: map<string, Communication>, closureId: string)
    requires ClosureRecorded(m, f, g, verifications, communications, closureId)
    ensures var links := LedgerInvariant.Committed(g)[|LedgerInvariant.Committed(g)| - 1].body.links;
            && VerificationId in links && CommunicationId in links
            && RevisionIsolation.LinkedThisRevision(f.journal.records, VerificationId, links[VerificationId])
            && RevisionIsolation.LinkedThisRevision(f.journal.records, CommunicationId, links[CommunicationId])
  {
    hide Fold, LedgerInvariant.Committed, RevisionIsolation.LinkedThisRevision, AllValid, MarkersBind;
    var p := Current(m, f).value;
    var v, c :| v in verifications.Values && c in communications.Values && ClosureCites(p, g, v, c, closureId);
    RevisionIsolation.ActiveIsFromThisRevision(m, f.snapshots, f.journal.records, VerificationId);
    RevisionIsolation.ActiveIsFromThisRevision(m, f.snapshots, f.journal.records, CommunicationId);
  }
}
