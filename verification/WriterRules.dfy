/**
 * When each ledger writer commits, and what its event says: conditions a caller can read off the committed events, and
 * that are necessary and sufficient on every run directory nobody tampered with.
 */
module WriterRules {
  import opened Results
  import opened Workflow
  import opened Records
  import opened Journals
  import opened Ledger
  import opened Writers
  import opened LedgerInvariant
  import opened CrashRecovery
  import opened LedgerHistory
  import opened RevisionIsolation
  import opened ReplayRules

  // ---- what every writer needs ----

  /** The directory is open for writing: not sealed, and nothing lies past its committed events. */
  predicate Writable(f: Files) {
    f.freeze.None? && Tidy(f)
  }

  /** A synthetic identifier, and not the name of another case. */
  predicate LinkFits(m: Manifest, id: string) {
    |id| >= 3 && id[..3] == "S2-" && (|id| >= 8 && id[..8] == "S2-CASE-" ==> id == m.caseId)
  }

  lemma LinkIsAllowed(m: Manifest, id: string)
    ensures LinkAllowed(m, id) <==> LinkFits(m, id)
  {
  }

  predicate LinksFit(m: Manifest, links: Links) {
    forall k :: k in links ==> LinkFits(m, links[k])
  }

  /** What a reader learns from a tidy directory. */
  lemma TidyReads(m: Manifest, f: Files)
    requires LedgerInv(m, f)
    ensures ReadEvents(m, f) == if Tidy(f) then Ok(Committed(f)) else Err(Integrity)
    ensures Tidy(f) ==> f.journal.records == Committed(f) && Fold(m, f.snapshots, Committed(f)).Ok?
                        && Means(m, f.snapshots, Committed(f), Fold(m, f.snapshots, Committed(f)).value)
                        && InForce(Fold(m, f.snapshots, Committed(f)).value.active, Committed(f))
  {
    hide Fold, Means, InForce;
    ReadableIffTidy(m, f);
    if Tidy(f) {
      ReplayMeans(m, f.snapshots, Committed(f));
      ActiveIsLastLink(m, f.snapshots, Committed(f));
    }
  }

  lemma ReadsWhenTidy(m: Manifest, f: Files)
    requires LedgerInv(m, f)
    ensures ReadEvents(m, f) == if Tidy(f) then Ok(f.journal.records) else Err(Integrity)
    ensures Tidy(f) ==> f.journal.records == Committed(f)
  {
    hide Fold;
    ReadableIffTidy(m, f);
  }

  // ---- append ----

  predicate StaysPut(t: EventType) {
    t == CommunicationRecorded || t == PartialTailRecovered || t == UncommittedEventRecovered
    || t == WorkspaceCheckpointed
  }

  /** From the state the events left, the command's event may enter its target. */
  predicate MayMoveTo(state: Option<WorkflowState>, cmd: Command) {
    if StaysPut(cmd.eventType) then state == Some(cmd.target)
    else OrdinaryMove(state, cmd.eventType, cmd.target, cmd.actionCount)
  }

  predicate MayAppend(m: Manifest, f: Files, cmd: Command) {
    var events := Committed(f);
    && Writable(f) && FreshCommand(events, cmd.commandId)
    && cmd.expectedRevision == RevisionAfter(m, events) && cmd.expectedHead == HeadAfter(m, events)
    && MayMoveTo(StateAfter(events), cmd) && LinksFit(m, cmd.links)
  }

  /** The event says what the command said, who said it, and under which command. */
  predicate Says(m: Manifest, e: Event, cmd: Command) {
    var b := e.body;
    && e.digest == OfEvent(b) && b.runId == m.runId && b.caseId == m.caseId
    && b.eventType == cmd.eventType && b.toState == cmd.target && b.actionCount == cmd.actionCount
    && b.actorKind == cmd.actorKind && b.actorId == cmd.actorId && b.links == cmd.links && b.decision == cmd.decision
    && b.commandId == cmd.commandId && b.commandDigest == OfCommand(cmd)
  }

  lemma MayEnterIsMayMove(state: Option<WorkflowState>, cmd: Command)
    ensures MayEnter(state, cmd) <==> MayMoveTo(state, cmd)
  {
    OrdinaryMovesAreLegal(state, cmd.eventType, cmd.target, cmd.actionCount);
    hide Transition, OrdinaryMove;
  }

  /** The event an append would make is valid exactly when its links fit the case. */
  lemma EventIsValid(m: Manifest, r: Replay, cmd: Command, sequence: int, occurredAt: string)
    requires sequence >= 1
    ensures ValidEvent(m, EventFor(m, r, cmd, sequence, occurredAt)) <==> LinksFit(m, cmd.links)
    ensures Says(m, EventFor(m, r, cmd, sequence, occurredAt), cmd)
  {
    forall k | k in cmd.links ensures LinkAllowed(m, cmd.links[k]) <==> LinkFits(m, cmd.links[k]) {
      LinkIsAllowed(m, cmd.links[k]);
    }
    hide LinkAllowed, LinkFits;
  }

  /**
   * The general writer, exactly. It commits an event if and only if the directory is writable, the command is new and
   * was prepared against the last event, its move is lawful from where that event left the run and its links stay
   * within the case; and the event then says what the command said.
   */
  lemma AppendCommitsExactly(m: Manifest, f: Files, cmd: Command)
    requires LedgerInv(m, f)
    ensures var plan := AppendPlan(m, f, cmd);
            && (plan.Ok? && plan.value.Commit? <==> MayAppend(m, f, cmd))
            && (plan.Ok? && plan.value.Commit? ==> Says(m, plan.value.event, cmd))
  {
    hide Fold, LedgerInv, ReadEvents, InForce, CommandIds, MayEnter, MayMoveTo, EventFor, ValidEvent, LinksFit, Says,
         LoadBatch, FreshCommand, Tidy, Committed;
    TidyReads(m, f);
    if Writable(f) {
      var events := Committed(f);
      var r := Fold(m, f.snapshots, events).value;
      FoldFacts(m, f.snapshots, events);
      SearchFindsCommand(events, cmd.commandId);
      FreshMeansUnknown(events, cmd.commandId);
      MayEnterIsMayMove(r.state, cmd);
      if LoadBatch(m, f.snapshots, r.revision).Ok? {
        EventIsValid(m, r, cmd, |events| + 1, LoadBatch(m, f.snapshots, r.revision).value.committedAt);
      }
    }
  }

  /** What it commits continues the ledger by the rules of replay, unless the caller passed a revision event type. */
  lemma AppendContinues(m: Manifest, f: Files, cmd: Command)
    requires LedgerInv(m, f) && MayAppend(m, f, cmd) && !IsRevision(cmd.eventType)
    ensures AppendPlan(m, f, cmd).Ok? && AppendPlan(m, f, cmd).value.Commit?
    ensures Continues(m, f.snapshots, Committed(f), AppendPlan(m, f, cmd).value.event.body)
  {
    hide Fold, LedgerInv, AppendPlan, Continues, MayAppend;
    AppendCommitsExactly(m, f, cmd);
    var e := AppendPlan(m, f, cmd).value.event;
    AppendAgreesWithReplay(m, f, cmd);
    TidyReads(m, f);
    MayAppendIsTidy(m, f, cmd);
    FoldSnoc(m, f.snapshots, Committed(f), e);
    StepExactly(m, f.snapshots, Committed(f), Fold(m, f.snapshots, Committed(f)).value, e);
  }

  lemma MayAppendIsTidy(m: Manifest, f: Files, cmd: Command)
    requires MayAppend(m, f, cmd)
    ensures Tidy(f)
  {
  }

  // ---- reservation ----

  /** The authority was granted for this action, and for the very payload the action carries. */
  predicate GrantedFor(authority: Authority, a: Action) {
    && authority.payload == a.terms.payload
    && authority.id == a.terms.authorityReference
    && a.terms.actionId == a.recordId
  }

  /** An earlier reservation that shares the key, the remedy or the authority. */
  predicate Claims(e: Event, a: Action, authority: string) {
    && e.body.eventType == ActionAuthorityReserved && e.body.decision.Reservation?
    && (e.body.decision.idempotencyKey == a.terms.idempotencyKey
        || e.body.decision.businessKey == a.terms.businessKey
        || e.body.decision.authority == authority)
  }

  predicate Unclaimed(events: seq<Event>, a: Action, authority: string) {
    forall i :: 0 <= i < |events| ==> !Claims(events[i], a, authority)
  }

  /** An earlier reservation of this very contract under this very key and authority. */
  predicate IsRetry(e: Event, a: Action, authority: string) {
    && e.body.eventType == ActionAuthorityReserved && e.body.decision.Reservation?
    && e.body.decision.idempotencyKey == a.terms.idempotencyKey && e.body.decision.contract == a.contract
    && e.body.decision.authority == authority
  }

  ghost predicate AlreadyReserved(events: seq<Event>, a: Action, authority: string) {
    exists i: nat :: FirstClaimIsRetry(events, i, a, authority)
  }

  lemma {:induction false} ScanIsClearExactly(events: seq<Event>, a: Action, authority: string)
    ensures ScanReservations(events, a, authority) == Ok(false) <==> Unclaimed(events, a, authority)
  {
    if events != [] {
      ScanIsClearExactly(events[1..], a, authority);
      assert events == [events[0]] + events[1..];
      assert forall i :: 0 <= i < |events[1..]| ==> events[1..][i] == events[i + 1];
      assert forall i :: 1 <= i < |events| ==> events[i] == events[1..][i - 1];
    }
  }

  predicate FirstClaimIsRetry(events: seq<Event>, i: nat, a: Action, authority: string) {
    && i < |events| && IsRetry(events[i], a, authority)
    && forall j :: 0 <= j < i ==> !Claims(events[j], a, authority)
  }

  lemma FirstClaimShifts(events: seq<Event>, i: nat, a: Action, authority: string)
    requires events != [] && !Claims(events[0], a, authority)
    ensures FirstClaimIsRetry(events, i + 1, a, authority) <==> FirstClaimIsRetry(events[1..], i, a, authority)
  {
    hide IsRetry, Claims;
    var rest := events[1..];
    assert forall j :: 0 <= j < |rest| ==> rest[j] == events[j + 1];
    if FirstClaimIsRetry(rest, i, a, authority) {
      forall j | 0 <= j < i + 1 ensures !Claims(events[j], a, authority) {
        if j > 0 {
          assert !Claims(rest[j - 1], a, authority);
        }
      }
    }
  }

  lemma {:induction false} ScanFindsRetryExactly(events: seq<Event>, a: Action, authority: string)
    ensures ScanReservations(events, a, authority) == Ok(true) <==> AlreadyReserved(events, a, authority)
  {
    hide FirstClaimIsRetry;
    if events != [] {
      assert FirstClaimIsRetry(events, 0, a, authority) <==> IsRetry(events[0], a, authority) by {
        FirstIsFirst(events, a, authority);
      }
      if Claims(events[0], a, authority) {
        forall i: nat | i > 0 ensures !FirstClaimIsRetry(events, i, a, authority) {
          FirstIsFirst(events, a, authority);
        }
      } else {
        ScanFindsRetryExactly(events[1..], a, authority);
        forall i: nat
          ensures FirstClaimIsRetry(events, i + 1, a, authority) <==> FirstClaimIsRetry(events[1..], i, a, authority)
        {
          FirstClaimShifts(events, i, a, authority);
        }
        hide IsRetry;
        if i: nat :| FirstClaimIsRetry(events, i, a, authority) {
          FirstIsFirst(events, a, authority);
          assert FirstClaimIsRetry(events[1..], i - 1, a, authority);
        }
      }
    } else {
      NoClaimAtAll(a, authority);
    }
  }

  lemma FirstIsFirst(events: seq<Event>, a: Action, authority: string)
    requires events != []
    ensures FirstClaimIsRetry(events, 0, a, authority) <==> IsRetry(events[0], a, authority)
    ensures IsRetry(events[0], a, authority) ==> Claims(events[0], a, authority)
    ensures Claims(events[0], a, authority) ==> forall i: nat :: i > 0 ==> !FirstClaimIsRetry(events, i, a, authority)
  {
  }

  lemma NoClaimAtAll(a: Action, authority: string)
    ensures forall i: nat :: !FirstClaimIsRetry([], i, a, authority)
  {
  }

  /** The head the contract was built on: the last event, or the one before a recovery trace. */
  predicate BuiltOn(head: Digest, last: Event) {
    || head == last.digest
    || ((last.body.eventType == PartialTailRecovered || last.body.eventType == UncommittedEventRecovered)
        && head == last.body.previous)
  }

  predicate MayReserve(m: Manifest, f: Files, a: Action, authority: Authority, commandId: CommandId) {
    var events := Committed(f);
    && GrantedFor(authority, a) && Writable(f)
    && StateAfter(events) == Some(ActionPrepared)
    && a.terms.caseId == m.caseId && a.terms.caseRevision == RevisionAfter(m, events)
    && BuiltOn(a.terms.ledgerHead, events[|events| - 1])
    && Unclaimed(events, a, authority.id) && FreshCommand(events, commandId)
    && LinkFits(m, a.terms.actionId) && LinkFits(m, authority.id)
  }

  /** The one event that consumes the authority and owns the key. */
  predicate SaysReserved(e: Event, a: Action, authority: Authority, commandId: CommandId) {
    var b := e.body;
    && b.eventType == ActionAuthorityReserved && b.toState == ActionReserved && b.actionCount == 1
    && b.commandId == commandId && b.links == map[ActionId := a.terms.actionId, ApprovalId := authority.id]
    && b.decision == Reservation(a.contract, authority.payload, authority.id, authority.route, a.terms.businessKey,
                                 a.terms.idempotencyKey, a.terms.operation)
  }

  lemma TidyProjects(m: Manifest, f: Files, frozen: bool)
    requires LedgerInv(m, f) && Tidy(f)
    ensures var p := Project(m, f.snapshots, frozen, Committed(f));
            && (p.Ok? <==> Committed(f) != [])
            && (p.Ok? ==> && p.value.caseId == m.caseId && Some(p.value.state) == StateAfter(Committed(f))
                          && p.value.revision == RevisionAfter(m, Committed(f))
                          && p.value.head == HeadAfter(m, Committed(f)) && InForce(p.value.active, Committed(f))
                          && p.value.sequence == |Committed(f)|)
  {
    hide Fold, InForce;
    TidyReads(m, f);
  }

  /** On a tidy directory the append of a reservation is decided by its links and its command ID alone. */
  lemma ReservationAppends(m: Manifest, f: Files, a: Action, authority: Authority, commandId: CommandId, p: Projection)
    requires LedgerInv(m, f) && Tidy(f) && Project(m, f.snapshots, f.freeze.Some?, Committed(f)) == Ok(p)
    requires p.state == ActionPrepared && GrantedFor(authority, a)
    ensures var plan := AppendPlan(m, f, ReservationCommand(a, authority, p, commandId));
            && (plan.Ok? && plan.value.Commit?
                <==> && f.freeze.None? && FreshCommand(Committed(f), commandId)
                     && LinkFits(m, a.terms.actionId) && LinkFits(m, authority.id))
            && (plan.Ok? ==> plan.value.Commit? && SaysReserved(plan.value.event, a, authority, commandId))
  {
    hide Fold, LedgerInv, AppendPlan, Project, LinkFits, FreshCommand, Committed;
    var cmd := ReservationCommand(a, authority, p, commandId);
    TidyProjects(m, f, f.freeze.Some?);
    AppendCommitsExactly(m, f, cmd);
    HeadedCommandIsNew(m, f, cmd);
    TwoLinksFit(m, cmd.links, a.terms.actionId, authority.id);
  }

  lemma TwoLinksFit(m: Manifest, links: Links, actionId: string, approvalId: string)
    requires links == map[ActionId := actionId, ApprovalId := approvalId]
    ensures LinksFit(m, links) <==> LinkFits(m, actionId) && LinkFits(m, approvalId)
  {
    hide LinkFits;
    assert ActionId in links && ApprovalId in links;
  }

  /** Prepared against the head just read, a command is never answered as a retry. */
  lemma HeadedCommandIsNew(m: Manifest, f: Files, cmd: Command)
    requires LedgerInv(m, f) && Tidy(f) && cmd.expectedHead == HeadAfter(m, Committed(f))
    ensures !(AppendPlan(m, f, cmd).Ok? && AppendPlan(m, f, cmd).value.NoOp?)
  {
    hide Fold, LedgerInv, AppendPlan;
    TidyReads(m, f);
    CurrentCommandIsNew(m, f, cmd);
  }

  /**
   * The reservation writer, exactly. It commits if and only if the authority was granted for this action and this very
   * payload, an action is prepared in this case and revision, the contract was built on the last event (or the one
   * before a recovery trace), no earlier reservation shares its key, remedy or authority, and the command and links
   * are good; and then the event names exactly these.
   */
  lemma ReserveCommitsExactly(m: Manifest, f: Files, a: Action, authority: Authority, commandId: CommandId)
    requires LedgerInv(m, f)
    ensures var plan := ReservePlan(m, f, a, authority, commandId);
            && (plan.Ok? && plan.value.Commit? <==> MayReserve(m, f, a, authority, commandId))
            && (plan.Ok? && plan.value.Commit? ==> SaysReserved(plan.value.event, a, authority, commandId))
  {
    hide Fold, LedgerInv, ReadEvents, Project, AppendPlan, ScanReservations, InForce, LinkFits, FreshCommand, Unclaimed,
         Committed, ReservationCommand, SaysReserved, Tidy, BuiltOn;
    ReadsWhenTidy(m, f);
    if Tidy(f) && GrantedFor(authority, a) {
      TidyProjects(m, f, f.freeze.Some?);
      var p := Project(m, f.snapshots, f.freeze.Some?, Committed(f));
      if p.Ok? {
        HeadIsBuiltOn(a.terms.ledgerHead, p.value.head, Committed(f)[|Committed(f)| - 1]);
        ScanIsClearExactly(Committed(f), a, authority.id);
        if p.value.state == ActionPrepared {
          ReservationAppends(m, f, a, authority, commandId, p.value);
        }
      }
    }
  }

  lemma HeadIsBuiltOn(head: Digest, current: Digest, last: Event)
    requires current == last.digest
    ensures head in AcceptableHeads(current, last) <==> BuiltOn(head, last)
  {
  }

  /** And it answers without writing exactly to the retry of an earlier reservation, sealed or not. */
  lemma ReserveAnswersExactly(m: Manifest, f: Files, a: Action, authority: Authority, commandId: CommandId)
    requires LedgerInv(m, f)
    ensures var plan := ReservePlan(m, f, a, authority, commandId);
            plan.Ok? && plan.value.NoOp?
            <==> GrantedFor(authority, a) && Tidy(f) && AlreadyReserved(Committed(f), a, authority.id)
  {
    hide Fold, LedgerInv, ReadEvents, Project, AppendPlan, ScanReservations, InForce, LinkFits, FreshCommand, Committed,
         ReservationCommand, SaysReserved, IsRetry, Claims, Tidy, AcceptableHeads;
    ReadsWhenTidy(m, f);
    if Tidy(f) && GrantedFor(authority, a) {
      TidyProjects(m, f, f.freeze.Some?);
      ScanFindsRetryExactly(Committed(f), a, authority.id);
      var p := Project(m, f.snapshots, f.freeze.Some?, Committed(f));
      if p.Ok? && p.value.state == ActionPrepared {
        ReservationAppends(m, f, a, authority, commandId, p.value);
      }
    }
  }

  // ---- source revision and reopen ----

  /** A snapshot of the next revision of this case, taken at the last event, under a number not stored yet. */
  predicate SnapshotFits(m: Manifest, f: Files, batch: Batch) {
    var events := Committed(f);
    && batch.caseId == m.caseId && batch.revision == RevisionAfter(m, events) + 1
    && batch.ledgerHead == HeadAfter(m, events) && batch.revision !in f.snapshots
  }

  predicate MayRevise(m: Manifest, f: Files, batch: Batch, expectedRevision: int, expectedHead: Digest) {
    var events := Committed(f);
    && Writable(f) && events != []
    && expectedRevision == RevisionAfter(m, events) && expectedHead == HeadAfter(m, events)
    && StateAfter(events) != Some(Received) && StateAfter(events) != Some(ControlStopped)
    && StateAfter(events) != Some(Closed) && StateAfter(events) != Some(Reopened)
    && SnapshotFits(m, f, batch)
  }

  predicate MayReopen(m: Manifest, f: Files, batch: Batch, expectedRevision: int, expectedHead: Digest) {
    var events := Committed(f);
    && Writable(f) && StateAfter(events) == Some(Closed)
    && expectedRevision == RevisionAfter(m, events) && expectedHead == HeadAfter(m, events)
    && SnapshotFits(m, f, batch)
  }

  /** The event pins the new snapshot, starts its revision from the last event and blocks on evidence. */
  predicate SaysRevised(m: Manifest, f: Files, e: Event, batch: Batch) {
    var events, b := Committed(f), e.body;
    && e.digest == OfEvent(b) && b.runId == m.runId && b.caseId == m.caseId
    && b.sequence == |events| + 1 && b.previous == HeadAfter(m, events)
    && b.fromState == StateAfter(events) && b.toState == EvidenceBlocked
    && b.previousRevision == RevisionAfter(m, events) && b.revision == batch.revision
    && b.cut == batch.cut && b.pin == batch.pin && b.snapshot == OfBatch(batch) && b.occurredAt == batch.committedAt
    && b.links == map[] && b.actionCount == 0
  }

  /** On a projection the plan of a revision is a few comparisons. */
  lemma RevisionPlanned(m: Manifest, f: Files, p: Projection, batch: Batch, eventType: EventType, kind: string,
                        id: string, expectedRevision: int, expectedHead: Digest, commandId: CommandId)
    requires f.freeze.None? && ReadEvents(m, f).Ok? && Project(m, f.snapshots, false, ReadEvents(m, f).value) == Ok(p)
    ensures var cmd := Command(EvidenceBlocked, eventType, kind, id, expectedRevision, expectedHead, commandId, map[],
                               Invalidation(SortedValues(p.active)), 0);
            var plan := RevisePlan(m, f, batch, eventType, kind, id, expectedRevision, expectedHead, commandId);
            && (plan.Ok? <==> && p.revision == expectedRevision && p.head == expectedHead
                              && batch.caseId == p.caseId && batch.revision == p.revision + 1
                              && batch.ledgerHead == p.head && batch.revision !in f.snapshots
                              && p.state != Received && p.state != ControlStopped && p.state != Closed
                              && p.state != Reopened)
            && (plan.Ok? ==> plan.value == RevisionPlan(batch, RevisionEvent(m, p, batch, cmd)))
  {
    hide ReadEvents, Project, SortedValues, RevisionEvent;
  }

  lemma ReopenPlanned(m: Manifest, f: Files, p: Projection, batch: Batch, expectedRevision: int, expectedHead: Digest,
                      commandId: CommandId)
    requires f.freeze.None? && ReadEvents(m, f).Ok? && Project(m, f.snapshots, false, ReadEvents(m, f).value) == Ok(p)
    ensures var closure := if ClosureId in p.active then Some(p.active[ClosureId]) else None;
            var cmd := Command(EvidenceBlocked, CaseReopened, "deterministic_control", "S2-ACTOR-REOPEN-CONTROL",
                               expectedRevision, expectedHead, commandId, map[],
                               Reopening(SortedValues(p.active), closure, p.revision), 0);
            var plan := ReopenPlan(m, f, batch, expectedRevision, expectedHead, commandId);
            && (plan.Ok? <==> && p.revision == expectedRevision && p.head == expectedHead
                              && batch.caseId == p.caseId && batch.revision == p.revision + 1
                              && batch.ledgerHead == p.head && batch.revision !in f.snapshots
                              && p.state == Closed)
            && (plan.Ok? ==> plan.value == RevisionPlan(batch, RevisionEvent(m, p, batch, cmd)))
  {
    hide ReadEvents, Project, SortedValues, RevisionEvent;
  }

  lemma RevisionNeedsEvents(m: Manifest, f: Files, batch: Batch, eventType: EventType, kind: string, id: string,
                            expectedRevision: int, expectedHead: Digest, commandId: CommandId)
    requires LedgerInv(m, f) && !(Writable(f) && Committed(f) != [])
    ensures RevisePlan(m, f, batch, eventType, kind, id, expectedRevision, expectedHead, commandId).Err?
    ensures ReopenPlan(m, f, batch, expectedRevision, expectedHead, commandId).Err?
  {
    hide Fold, LedgerInv, ReadEvents, Project, InForce, SortedValues, Committed, Tidy, RevisionEvent, BatchFollows;
    ReadsWhenTidy(m, f);
    if Writable(f) {
      TidyProjects(m, f, false);
    }
  }

  /** A source revision is planned exactly then, and its event retires everything in force by name. */
  lemma ReviseCommitsExactly(m: Manifest, f: Files, batch: Batch, eventType: EventType, kind: string, id: string,
                             expectedRevision: int, expectedHead: Digest, commandId: CommandId)
    requires LedgerInv(m, f)
    ensures var plan := RevisePlan(m, f, batch, eventType, kind, id, expectedRevision, expectedHead, commandId);
            && (plan.Ok? <==> MayRevise(m, f, batch, expectedRevision, expectedHead))
            && (plan.Ok? ==> && plan.value.batch == batch && SaysRevised(m, f, plan.value.event, batch)
                             && plan.value.event.body.eventType == eventType
                             && plan.value.event.body.commandId == commandId
                             && plan.value.event.body.decision.Invalidation?
                             && RetiresAll(Committed(f), plan.value.event.body.decision))
  {
    hide Fold, LedgerInv, ReadEvents, Project, InForce, SortedValues, Committed, Tidy, RetiresAll, RevisionEvent,
         SaysRevised, RevisePlan;
    if Writable(f) && Committed(f) != [] {
      ReadsWhenTidy(m, f);
      TidyProjects(m, f, false);
      var p := Project(m, f.snapshots, false, Committed(f)).value;
      RevisionPlanned(m, f, p, batch, eventType, kind, id, expectedRevision, expectedHead, commandId);
      var d := Invalidation(SortedValues(p.active));
      RetiresActive(Committed(f), p.active, d);
      RevisionSays(m, f, p, batch, Command(EvidenceBlocked, eventType, kind, id, expectedRevision, expectedHead,
                                           commandId, map[], d, 0));
    } else {
      RevisionNeedsEvents(m, f, batch, eventType, kind, id, expectedRevision, expectedHead, commandId);
    }
  }

  lemma RetiresActive(past: seq<Event>, active: Links, d: Decision)
    requires InForce(active, past)
    requires (d.Invalidation? || d.Reopening?) && d.ids == SortedValues(active)
    ensures RetiresAll(past, d)
  {
    hide InForce, SortedValues;
  }

  /** What the event of a revision or reopen says. */
  lemma RevisionSays(m: Manifest, f: Files, p: Projection, batch: Batch, cmd: Command)
    requires Project(m, f.snapshots, false, Committed(f)) == Ok(p) && LedgerInv(m, f) && Tidy(f)
    requires cmd.target == EvidenceBlocked && cmd.links == map[]
    ensures var e := RevisionEvent(m, p, batch, cmd);
            && SaysRevised(m, f, e, batch) && e.body.eventType == cmd.eventType && e.body.decision == cmd.decision
            && e.body.commandId == cmd.commandId
  {
    hide Fold, LedgerInv, Project, InForce, Committed, Tidy;
    TidyProjects(m, f, false);
  }

  /** A reopen is planned exactly on a closed case, and its event also names the closure it preserves. */
  lemma ReopenCommitsExactly(m: Manifest, f: Files, batch: Batch, expectedRevision: int, expectedHead: Digest,
                             commandId: CommandId)
    requires LedgerInv(m, f)
    ensures var plan := ReopenPlan(m, f, batch, expectedRevision, expectedHead, commandId);
            && (plan.Ok? <==> MayReopen(m, f, batch, expectedRevision, expectedHead))
            && (plan.Ok? ==> && plan.value.batch == batch && SaysRevised(m, f, plan.value.event, batch)
                             && plan.value.event.body.eventType == CaseReopened
                             && plan.value.event.body.commandId == commandId
                             && plan.value.event.body.decision.Reopening?
                             && RetiresAll(Committed(f), plan.value.event.body.decision)
                             && plan.value.event.body.decision.preservedClosure == LastLink(Committed(f), ClosureId)
                             && plan.value.event.body.decision.priorRevision == RevisionAfter(m, Committed(f)))
  {
    hide Fold, LedgerInv, ReadEvents, Project, InForce, SortedValues, Committed, LastLink, Tidy, RetiresAll,
         RevisionEvent, SaysRevised, ReopenPlan;
    if Writable(f) && Committed(f) != [] {
      ReadsWhenTidy(m, f);
      TidyProjects(m, f, false);
      var p := Project(m, f.snapshots, false, Committed(f)).value;
      ReopenPlanned(m, f, p, batch, expectedRevision, expectedHead, commandId);
      ClosureInForce(p.active, Committed(f));
      var d := Reopening(SortedValues(p.active), LastLink(Committed(f), ClosureId), p.revision);
      RetiresActive(Committed(f), p.active, d);
      RevisionSays(m, f, p, batch, Command(EvidenceBlocked, CaseReopened, "deterministic_control",
                                           "S2-ACTOR-REOPEN-CONTROL", expectedRevision, expectedHead, commandId,
                                           map[], d, 0));
    } else {
      RevisionNeedsEvents(m, f, batch, CaseReopened, "", "", expectedRevision, expectedHead, commandId);
    }
  }

  lemma ClosureInForce(active: Links, events: seq<Event>)
    requires InForce(active, events)
    ensures LastLink(events, ClosureId) == if ClosureId in active then Some(active[ClosureId]) else None
  {
    hide LastLink;
    assert IsTracked(ClosureId);
  }

  // ---- the seal ----

  /** A seal is written exactly on a writable run with events, and names the last of them and its revision. */
  lemma FreezeSealsHead(m: Manifest, f: Files, power: Power)
    requires LedgerInv(m, f)
    ensures var (g, r) := FreezeRun(m, f, power);
            && (r.Ok? <==> Writable(f) && Committed(f) != [] && power.writes > 0)
            && (r.Err? ==> g == f)
            && (r.Ok? ==> && r.value.head == Committed(f)[|Committed(f)| - 1].digest
                          && r.value.revision == Committed(f)[|Committed(f)| - 1].body.revision
                          && g.freeze == Some(r.value) && g.(freeze := None) == f)
  {
    hide Fold, LedgerInv, ReadEvents, Project, InForce, Committed, Tidy;
    ReadsWhenTidy(m, f);
    if Tidy(f) {
      TidyProjects(m, f, false);
    }
  }

  // ---- the calls under a crash ----

  /** The ledger gained one event on top of all it had. */
  ghost predicate GainedOne(f: Files, g: Files) {
    |Committed(g)| == |Committed(f)| + 1 && Committed(f) <= Committed(g)
  }

  /** The last committed event. */
  function Newest(f: Files): Event
    requires Committed(f) != []
  {
    Committed(f)[|Committed(f)| - 1]
  }

  /** What one call of a writer did: one event exactly under its condition and with its marker written, or nothing. */
  ghost predicate WroteIf(f: Files, g: Files, may: bool, writes: nat, needed: nat, ok: bool) {
    && (GainedOne(f, g) <==> may && writes >= needed)
    && (!GainedOne(f, g) ==> Committed(g) == Committed(f))
    && (may ==> (ok <==> writes > needed))
  }

  /** An append under every crash. */
  lemma AppendWritesExactly(m: Manifest, f: Files, cmd: Command, power: Power)
    requires LedgerInv(m, f) && !IsRevision(cmd.eventType)
    ensures var (g, r) := AppendRun(m, f, cmd, power);
            && WroteIf(f, g, MayAppend(m, f, cmd), power.writes, 2, r.Ok?)
            && (GainedOne(f, g) ==> Says(m, Newest(g), cmd))
  {
    hide Fold, LedgerInv, AppendPlan, CommitRun, MayAppend, Says, Grows, Project;
    AppendCommitsExactly(m, f, cmd);
    CrashRecovery.AppendKeeps(m, f, cmd, power);
    var plan := AppendPlan(m, f, cmd);
    if plan.Ok? && plan.value.Commit? {
      MayAppendIsWritable(m, f, cmd);
      PlannedIsAcceptable(m, f, cmd);
      CommitKeeps(m, f, plan.value.event, power);
    }
    hide Committed;
  }

  lemma MayAppendIsWritable(m: Manifest, f: Files, cmd: Command)
    requires MayAppend(m, f, cmd)
    ensures Writable(f)
  {
  }

  lemma PlannedIsAcceptable(m: Manifest, f: Files, cmd: Command)
    requires LedgerInv(m, f) && !IsRevision(cmd.eventType)
    requires AppendPlan(m, f, cmd).Ok? && AppendPlan(m, f, cmd).value.Commit?
    ensures Acceptable(m, f, AppendPlan(m, f, cmd).value.event)
  {
    hide Fold, LedgerInv, AppendPlan, ValidEvent;
    AppendAgreesWithReplay(m, f, cmd);
  }

  /** A reservation under every crash. */
  lemma ReserveWritesExactly(m: Manifest, f: Files, a: Action, authority: Authority, commandId: CommandId, power: Power)
    requires LedgerInv(m, f)
    ensures var (g, r) := ReserveRun(m, f, a, authority, commandId, power);
            && WroteIf(f, g, MayReserve(m, f, a, authority, commandId), power.writes, 2, r.Ok?)
            && (GainedOne(f, g) ==> SaysReserved(Newest(g), a, authority, commandId))
            && (r.Ok? ==> GrantedFor(authority, a))
            && (r.Ok? && !GainedOne(f, g) ==> g == f && AlreadyReserved(Committed(f), a, authority.id))
  {
    hide Fold, LedgerInv, AppendPlan, AppendRun, ReservePlan, ReserveRun, CommitRun, MayReserve, SaysReserved, Project,
         GrantedFor, Committed, AlreadyReserved;
    ReserveCommitsExactly(m, f, a, authority, commandId);
    ReserveAnswersExactly(m, f, a, authority, commandId);
    var cmd := ReserveIsAppend(m, f, a, authority, commandId, power);
    ReserveRunCases(m, f, a, authority, commandId, power);
    var plan := ReservePlan(m, f, a, authority, commandId);
    if plan.Ok? && plan.value.Commit? {
      GrantedToReserve(m, f, a, authority, commandId);
      AppendWritesExactly(m, f, cmd, power);
      AppendCommitsExactly(m, f, cmd);
      PlanIsWritten(m, f, cmd, power);
    }
  }

  lemma GrantedToReserve(m: Manifest, f: Files, a: Action, authority: Authority, commandId: CommandId)
    requires MayReserve(m, f, a, authority, commandId)
    ensures GrantedFor(authority, a)
  {
  }

  lemma ReserveRunCases(m: Manifest, f: Files, a: Action, authority: Authority, commandId: CommandId, power: Power)
    ensures var plan := ReservePlan(m, f, a, authority, commandId);
            && (plan.Err? ==> ReserveRun(m, f, a, authority, commandId, power) == (f, Err(plan.error)))
            && (plan.Ok? && plan.value.NoOp?
                ==> ReserveRun(m, f, a, authority, commandId, power) == (f, Ok(plan.value.current)))
  {
    hide ReservePlan, CommitRun;
  }

  /** The event gained is the event planned. */
  lemma PlanIsWritten(m: Manifest, f: Files, cmd: Command, power: Power)
    requires LedgerInv(m, f) && !IsRevision(cmd.eventType)
    requires AppendPlan(m, f, cmd).Ok? && AppendPlan(m, f, cmd).value.Commit?
    ensures var g := AppendRun(m, f, cmd, power).0;
            GainedOne(f, g) ==> Newest(g) == AppendPlan(m, f, cmd).value.event
  {
    hide Fold, LedgerInv, AppendPlan, AppendRun, Committed, Grows, Project;
    CrashRecovery.AppendKeeps(m, f, cmd, power);
  }

  /** A revision or reopen under every crash; its snapshot is a write of its own. */
  lemma RevisionWritesExactly(m: Manifest, f: Files, plan: RevisionPlan, power: Power)
    requires LedgerInv(m, f) && Writable(f) && plan.batch.revision !in f.snapshots
    requires RevisionReplays(m, f, plan) && RevisionWellMade(m, f, plan)
    ensures var (g, r) := RevisionRun(m, f, Ok(plan), power);
            && WroteIf(f, g, true, power.writes, 3, r.Ok?)
            && (GainedOne(f, g) ==> Newest(g) == plan.event)
            && (power.writes > 0 ==> plan.batch.revision in g.snapshots
                                     && g.snapshots[plan.batch.revision] == plan.batch)
  {
    hide Fold, LedgerInv, Committed, Grows, Project, RevisionReplays, RevisionWellMade, CommitRun;
    RevisionKeeps(m, f, plan, power);
    RevisionLeavesOpen(m, f, plan, power);
    RevisionReturns(m, f, plan, power);
  }

  lemma RevisionReturns(m: Manifest, f: Files, plan: RevisionPlan, power: Power)
    requires LedgerInv(m, f) && Writable(f) && plan.batch.revision !in f.snapshots
    requires RevisionReplays(m, f, plan) && RevisionWellMade(m, f, plan)
    ensures RevisionRun(m, f, Ok(plan), power).1.Ok? <==> power.writes > 3
  {
    hide Fold, LedgerInv, CommitRun, Advance, Start, EnterRevision, LoadBatch, Grows, ValidEvent;
    if power.writes > 0 {
      SnapshotKeeps(m, f, plan.batch);
      CommitKeeps(m, WithSnapshot(f, plan.batch), plan.event, power.(writes := power.writes - 1));
    }
  }

  // ---- the reader ----

  /** One record as it has to be: its digest is of its content, it is of this run and case, its links stay in it. */
  predicate IsGenuine(m: Manifest, e: Event) {
    && e.digest == OfEvent(e.body) && e.body.runId == m.runId && e.body.caseId == m.caseId && e.body.sequence >= 1
    && forall k :: k in e.body.links ==> LinkFits(m, e.body.links[k])
  }

  /** The marker under this number names the record: its run, number, revision and digest. */
  predicate Names(m: Manifest, marker: CommitMarker, e: Event, position: int) {
    && marker.runId == m.runId && marker.sequence == position && marker.revision == e.body.revision
    && marker.digest == e.digest
  }

  lemma GenuineIsValid(m: Manifest, e: Event)
    ensures ValidEvent(m, e) <==> IsGenuine(m, e)
  {
    forall k | k in e.body.links ensures LinkAllowed(m, e.body.links[k]) <==> LinkFits(m, e.body.links[k]) {
      LinkIsAllowed(m, e.body.links[k]);
    }
    hide LinkAllowed, LinkFits;
  }

  lemma MarkersNameExactly(m: Manifest, commits: map<int, CommitMarker>, events: seq<Event>)
    ensures MarkersBind(m, commits, events)
            <==> && (forall i :: i in commits <==> 1 <= i <= |events|)
                 && forall i :: 0 <= i < |events| ==> Names(m, commits[i + 1], events[i], i + 1)
  {
    if MarkersBind(m, commits, events) {
      MarkerKeys(m, commits, events);
      forall i | 0 <= i < |events| ensures Names(m, commits[i + 1], events[i], i + 1) {
        assert MarkerBinds(m, commits, events[i], i + 1);
      }
    }
    if (forall i :: i in commits <==> 1 <= i <= |events|)
       && forall i :: 0 <= i < |events| ==> Names(m, commits[i + 1], events[i], i + 1) {
      assert commits.Keys == UpTo(|events|);
      assert |commits| == |commits.Keys|;
      forall i | 0 <= i < |events| ensures MarkerBinds(m, commits, events[i], i + 1) {
        assert Names(m, commits[i + 1], events[i], i + 1);
      }
    }
  }

  /**
   * The ledger's reader, exactly, over any directory at all. It answers the records if and only if no torn piece
   * follows them, each is genuine, and the markers are those numbered 1 to n, each naming its record.
   */
  lemma ReaderAcceptsExactly(m: Manifest, f: Files)
    ensures var records := f.journal.records;
            && (ReadEvents(m, f).Ok?
                <==> && f.journal.torn.None? && (forall i :: 0 <= i < |records| ==> IsGenuine(m, records[i]))
                     && (forall i :: i in f.commits <==> 1 <= i <= |records|)
                     && forall i :: 0 <= i < |records| ==> Names(m, f.commits[i + 1], records[i], i + 1))
            && (ReadEvents(m, f).Ok? ==> ReadEvents(m, f).value == records)
  {
    var records := f.journal.records;
    forall i | 0 <= i < |records| ensures ValidEvent(m, records[i]) <==> IsGenuine(m, records[i]) {
      GenuineIsValid(m, records[i]);
    }
    MarkersNameExactly(m, f.commits, records);
    hide ValidEvent, IsGenuine, MarkersBind, Names;
  }

  /** A checkpoint that passes the resume check is the state of the run at its own number, and nothing else. */
  lemma CheckpointNamesPrefix(m: Manifest, f: Files, p: Projection, events: seq<Event>)
    requires CheckpointValid(m, f, p, events)
    ensures 1 <= p.sequence <= |events|
    ensures var prefix := events[..p.sequence];
            && p.runId == m.runId && p.caseId == m.caseId
            && p.head == HeadAfter(m, prefix) && p.revision == RevisionAfter(m, prefix)
            && Some(p.state) == StateAfter(prefix) && InForce(p.active, prefix)
            && RetiredInOrder(p.invalidated, prefix)
            && Pinned(m, f.snapshots, p.revision)
            && var batch := f.snapshots[PinKey(m, p.revision)];
               p.cut == batch.cut && p.pin == batch.pin && p.snapshot == OfBatch(batch)
  {
    hide Fold, InForce, RetiredInOrder, Pinned;
    var prefix := events[..p.sequence];
    ReplayMeans(m, f.snapshots, prefix);
    ActiveIsLastLink(m, f.snapshots, prefix);
    InvalidatedIsRetired(m, f.snapshots, prefix);
  }
}
