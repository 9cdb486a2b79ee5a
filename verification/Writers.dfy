/**
 * What each ledger writer decides to do, and what one durable commit leaves behind when the process may die
 * before any write.
 */
module Writers {
  import opened Results
  import opened Workflow
  import opened Records
  import opened Journals
  import opened Ledger

  datatype Plan = NoOp(current: Projection) | Commit(event: Event)

  datatype RevisionPlan = RevisionPlan(batch: Batch, event: Event)

  datatype RecoveryPlan = AlreadyWhole(current: Projection) | DropTail(tail: LedgerTail, previous: Projection)

  datatype Authority = Authority(id: string, route: string, payload: Digest)

  // ---- append ----

  function FirstWithCommand(events: seq<Event>, id: CommandId): Option<Event> {
    if events == [] then None
    else if events[0].body.commandId == id then Some(events[0])
    else FirstWithCommand(events[1..], id)
  }

  function EventFor(m: Manifest, r: Replay, cmd: Command, sequence: int, occurredAt: string): Event {
    var body := EventBody(sequence, m.runId, m.caseId, r.head, r.revision, r.revision, r.state, cmd.target,
                          cmd.eventType, cmd.actorKind, cmd.actorId, cmd.actionCount, cmd.commandId, OfCommand(cmd),
                          cmd.links, cmd.decision, occurredAt, r.cut, r.pin, r.snapshot);
    Event(body, OfEvent(body))
  }

  predicate MayEnter(state: Option<WorkflowState>, cmd: Command) {
    if IsNonTransition(cmd.eventType) then state == Some(cmd.target)
    else Transition(state, cmd.target, cmd.eventType, cmd.actionCount).Ok?
  }

  function AppendPlan(m: Manifest, f: Files, cmd: Command): Result<Plan> {
    if f.freeze.Some? then
      Err(Frozen)
    else
      var events :- ReadEvents(m, f);
      var r :- Fold(m, f.snapshots, events);
      match FirstWithCommand(events, cmd.commandId)
      case Some(earlier) =>
        if earlier.body.commandDigest != OfCommand(cmd) then Err(Stale)
        else
          var current :- Project(m, f.snapshots, false, events);
          Ok(NoOp(current))
      case None =>
        if r.revision != cmd.expectedRevision || r.head != cmd.expectedHead then Err(Stale)
        else if !MayEnter(r.state, cmd) then Err(Illegal)
        else
          var batch :- LoadBatch(m, f.snapshots, r.revision);
          var e := EventFor(m, r, cmd, |events| + 1, batch.committedAt);
          if ValidEvent(m, e) then Ok(Commit(e)) else Err(Integrity)
  }

  // ---- the durable commit: append the line, write the marker, write the checkpoint ----

  function Torn(f: Files, tear: Option<string>): Files {
    f.(journal := f.journal.(torn := tear))
  }

  function Appended(f: Files, e: Event): Files {
    f.(journal := f.journal.(records := f.journal.records + [e]))
  }

  function Marked(m: Manifest, f: Files, e: Event): Files {
    Appended(f, e).(commits := f.commits[e.body.sequence := MarkerOf(m, e, e.body.sequence)])
  }

  function CommitRun(m: Manifest, f: Files, e: Event, power: Power): (Files, Result<Projection>) {
    if power.writes == 0 then
      (Torn(f, power.tear), Err(Crash))
    else if power.writes == 1 then
      (Appended(f, e), Err(Crash))
    else if e.body.sequence in f.commits then
      (Appended(f, e), Err(Integrity))
    else
      var g := Marked(m, f, e);
      match Project(m, g.snapshots, g.freeze.Some?, g.journal.records)
      case Err(x) => (g, Err(x))
      case Ok(p) =>
        if power.writes == 2 then (g, Err(Crash))
        else if p.sequence in g.checkpoints then (g, Err(Integrity))
        else (g.(checkpoints := g.checkpoints[p.sequence := p]), Ok(p))
  }

  function AppendRun(m: Manifest, f: Files, cmd: Command, power: Power): (Files, Result<Projection>) {
    match AppendPlan(m, f, cmd)
    case Err(x) => (f, Err(x))
    case Ok(NoOp(current)) => (f, Ok(current))
    case Ok(Commit(e)) => CommitRun(m, f, e, power)
  }

  // ---- reservation ----

  predicate IsReservation(e: Event) {
    e.body.eventType == ActionAuthorityReserved && e.body.decision.Reservation?
  }

  /** The scan over earlier reservations: an exact retry, no clash, or a refusal. */
  function ScanReservations(events: seq<Event>, a: Action, authority: string): Result<bool> {
    if events == [] then
      Ok(false)
    else if !IsReservation(events[0]) then
      ScanReservations(events[1..], a, authority)
    else
      var d := events[0].body.decision;
      if d.idempotencyKey == a.terms.idempotencyKey then
        if d.contract == a.contract && d.authority == authority then Ok(true) else Err(Integrity)
      else if d.businessKey == a.terms.businessKey || d.authority == authority then
        Err(Integrity)
      else
        ScanReservations(events[1..], a, authority)
  }

  function AcceptableHeads(head: Digest, last: Event): set<Digest> {
    if last.body.eventType in {PartialTailRecovered, UncommittedEventRecovered}
    then {head, last.body.previous} else {head}
  }

  function ReservationCommand(a: Action, authority: Authority, current: Projection, commandId: CommandId): Command {
    Command(ActionReserved, ActionAuthorityReserved, "deterministic_control", "S2-ACTOR-ACTION-CONTROL",
            current.revision, current.head, commandId,
            map[ActionId := a.terms.actionId, ApprovalId := authority.id],
            Reservation(a.contract, a.terms.payload, authority.id, authority.route, a.terms.businessKey,
                        a.terms.idempotencyKey, a.terms.operation),
            1)
  }

  predicate AuthorityBinds(a: Action, authority: Authority) {
    && a.recordId == a.terms.actionId
    && authority.id == a.terms.authorityReference && authority.payload == a.terms.payload
  }

  function ReservePlan(m: Manifest, f: Files, a: Action, authority: Authority, commandId: CommandId): Result<Plan> {
    if !AuthorityBinds(a, authority) then
      Err(Integrity)
    else
      var events :- ReadEvents(m, f);
      var current :- Project(m, f.snapshots, f.freeze.Some?, events);
      var retry :- ScanReservations(events, a, authority.id);
      if retry then
        Ok(NoOp(current))
      else if current.state != ActionPrepared then
        Err(Integrity)
      else if current.caseId != a.terms.caseId || current.revision != a.terms.caseRevision then
        Err(Stale)
      else if events == [] || a.terms.ledgerHead !in AcceptableHeads(current.head, events[|events| - 1]) then
        Err(Stale)
      else
        AppendPlan(m, f, ReservationCommand(a, authority, current, commandId))
  }

  function ReserveRun(m: Manifest, f: Files, a: Action, authority: Authority, commandId: CommandId, power: Power)
    : (Files, Result<Projection>)
  {
    match ReservePlan(m, f, a, authority, commandId)
    case Err(x) => (f, Err(x))
    case Ok(NoOp(current)) => (f, Ok(current))
    case Ok(Commit(e)) => CommitRun(m, f, e, power)
  }

  // ---- source revision and reopen ----

  function RevisionEvent(m: Manifest, current: Projection, batch: Batch, cmd: Command): Event {
    var body := EventBody(current.sequence + 1, m.runId, m.caseId, current.head, current.revision, batch.revision,
                          Some(current.state), cmd.target, cmd.eventType, cmd.actorKind, cmd.actorId, 0,
                          cmd.commandId, OfCommand(cmd), map[], cmd.decision, batch.committedAt,
                          batch.cut, batch.pin, OfBatch(batch));
    Event(body, OfEvent(body))
  }

  predicate BatchFollows(current: Projection, batch: Batch) {
    && batch.caseId == current.caseId && batch.revision == current.revision + 1
    && batch.ledgerHead == current.head
  }

  function RevisePlan(m: Manifest, f: Files, batch: Batch, eventType: EventType, actorKind: string, actorId: string,
                      expectedRevision: int, expectedHead: Digest, commandId: CommandId): Result<RevisionPlan> {
    if f.freeze.Some? then
      Err(Frozen)
    else
      var events :- ReadEvents(m, f);
      var current :- Project(m, f.snapshots, false, events);
      if current.revision != expectedRevision || current.head != expectedHead then Err(Stale)
      else if !BatchFollows(current, batch) then Err(Integrity)
      else
        var target :- RevisionTarget(current.state);
        if batch.revision in f.snapshots then Err(Integrity)
        else
          var cmd := Command(target, eventType, actorKind, actorId, expectedRevision, expectedHead, commandId, map[],
                             Invalidation(SortedValues(current.active)), 0);
          Ok(RevisionPlan(batch, RevisionEvent(m, current, batch, cmd)))
  }

  function ReopenPlan(m: Manifest, f: Files, batch: Batch, expectedRevision: int, expectedHead: Digest,
                      commandId: CommandId): Result<RevisionPlan> {
    if f.freeze.Some? then
      Err(Frozen)
    else
      var events :- ReadEvents(m, f);
      var current :- Project(m, f.snapshots, false, events);
      if current.state != Closed then Err(Integrity)
      else if current.revision != expectedRevision || current.head != expectedHead then Err(Stale)
      else if !BatchFollows(current, batch) then Err(Integrity)
      else if batch.revision in f.snapshots then Err(Integrity)
      else
        var closure := if ClosureId in current.active then Some(current.active[ClosureId]) else None;
        var cmd := Command(EvidenceBlocked, CaseReopened, "deterministic_control", "S2-ACTOR-REOPEN-CONTROL",
                           expectedRevision, expectedHead, commandId, map[],
                           Reopening(SortedValues(current.active), closure, current.revision), 0);
        Ok(RevisionPlan(batch, RevisionEvent(m, current, batch, cmd)))
  }

  function WithSnapshot(f: Files, batch: Batch): Files {
    f.(snapshots := f.snapshots[batch.revision := batch])
  }

  /** The snapshot is written before its event. */
  function RevisionRun(m: Manifest, f: Files, plan: Result<RevisionPlan>, power: Power): (Files, Result<Projection>) {
    if plan.Err? then (f, Err(plan.error))
    else if power.writes == 0 then (f, Err(Crash))
    else CommitRun(m, WithSnapshot(f, plan.value.batch), plan.value.event, power.(writes := power.writes - 1))
  }

  // ---- tail recovery ----

  function RecoverPlan(m: Manifest, f: Files): Result<RecoveryPlan> {
    var records := f.journal.records;
    if f.freeze.Some? then Err(Frozen)
    else if records == [] && f.journal.torn.None? then Err(Integrity)
    else if !AllValid(m, records) then Err(Integrity)
    else if f.journal.torn.None? && |f.commits| == |records| then
      if !MarkersBind(m, f.commits, records) then Err(Integrity)
      else
        var current :- Project(m, f.snapshots, false, records);
        Ok(AlreadyWhole(current))
    else if f.journal.torn.None? then
      var prefix := records[..|records| - 1];
      if |records| < 2 || !MarkersBind(m, f.commits, prefix) then Err(Integrity)
      else
        var _ :- Project(m, f.snapshots, false, records);
        var previous :- Project(m, f.snapshots, false, prefix);
        Ok(DropTail(WholeEvent(records[|records| - 1]), previous))
    else if records == [] || !MarkersBind(m, f.commits, records) then
      Err(Integrity)
    else
      var previous :- Project(m, f.snapshots, false, records);
      Ok(DropTail(TornBytes(f.journal.torn.value), previous))
  }

  function RecoveryCommand(tail: LedgerTail, previous: Projection): Command {
    Command(previous.state, if tail.TornBytes? then PartialTailRecovered else UncommittedEventRecovered,
            "system", "S2-ACTOR-RECOVERY", previous.revision, previous.head, RecoverTail(OfTail(tail)), map[],
            TailRecovery(OfTail(tail)), 0)
  }

  function Truncated(f: Files, tail: LedgerTail): Files {
    var records := f.journal.records;
    f.(journal := Journal(if tail.WholeEvent? && records != [] then records[..|records| - 1] else records, None))
  }

  function Quarantined(f: Files, tail: LedgerTail): Files {
    f.(quarantine := f.quarantine + {tail})
  }

  /** Quarantine the tail under its own digest, cut it off, then leave one trace event. */
  function RecoverRun(m: Manifest, f: Files, power: Power): (Files, Result<Projection>) {
    match RecoverPlan(m, f)
    case Err(x) => (f, Err(x))
    case Ok(AlreadyWhole(current)) => (f, Ok(current))
    case Ok(DropTail(tail, previous)) =>
      if tail in f.quarantine then (f, Err(Integrity))
      else if power.writes == 0 then (f, Err(Crash))
      else if power.writes == 1 then (Quarantined(f, tail), Err(Crash))
      else AppendRun(m, Truncated(Quarantined(f, tail), tail), RecoveryCommand(tail, previous),
                     power.(writes := power.writes - 2))
  }

  // ---- checkpoints and freeze ----

  /** `_validate_checkpoint` against the events a reader has just accepted. */
  predicate CheckpointValid(m: Manifest, f: Files, p: Projection, events: seq<Event>) {
    && 1 <= p.sequence <= |events|
    && Project(m, f.snapshots, p.frozen, events[..p.sequence]) == Ok(p)
  }

  function FreezeRun(m: Manifest, f: Files, power: Power): (Files, Result<FreezeRecord>) {
    if f.freeze.Some? then (f, Err(Frozen))
    else
      match ReadEvents(m, f)
      case Err(x) => (f, Err(x))
      case Ok(events) =>
        match Project(m, f.snapshots, false, events)
        case Err(x) => (f, Err(x))
        case Ok(p) =>
          if power.writes == 0 then (f, Err(Crash))
          else (f.(freeze := Some(FreezeRecord(p.revision, p.head))), Ok(FreezeRecord(p.revision, p.head)))
  }
}
