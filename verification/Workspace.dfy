/**
 * The file workspace: the ledger's reader and its writers, statement by statement, over a run directory that may
 * lose power before any durable write.
 */
module Workspace {
  import opened Results
  import opened Workflow
  import opened Records
  import opened Journals
  import opened Ledger
  import opened Writers
  import opened LedgerInvariant
  import opened CrashRecovery
  import opened LedgerHistory
  import opened ReplayRules
  import opened WriterRules

  /** Once a prefix is refused, so is the whole list, with the same error. */
  lemma {:induction false} RefusedPrefix(m: Manifest, snaps: Snapshots, events: seq<Event>, k: nat)
    requires k <= |events| && Fold(m, snaps, events[..k]).Err?
    ensures Fold(m, snaps, events) == Fold(m, snaps, events[..k])
  {
    if k == |events| {
      assert events[..k] == events;
    } else {
      assert events[..|events| - 1][..k] == events[..k];
      RefusedPrefix(m, snaps, events[..|events| - 1], k);
    }
  }

  class FileRecoveryWorkspace {
    const manifest: Manifest
    var files: Files
    var power: Power

    /** `prepare`: the run directory with its first snapshot pinned, and the received event committed. */
    constructor Prepare(runId: string, batch: Batch, commandId: CommandId, power: Power)
      requires batch.revision >= 1
      ensures manifest == Manifest(runId, batch.caseId, batch.ledgerHead, batch.revision, OfBatch(batch))
      ensures LedgerInv(manifest, files)
      ensures files.freeze.None?
      ensures if power.writes >= 2
              then Tidy(files) && |Committed(files)| == 1 && Committed(files)[0].body.eventType == CaseReceived
                   && Committed(files)[0].body.toState == Received
              else Committed(files) == []
    {
      hide Fold, AppendPlan, LedgerInv, CommitRun, AppendRun, ValidEvent, Grows;
      manifest := Manifest(runId, batch.caseId, batch.ledgerHead, batch.revision, OfBatch(batch));
      files := Files(Journal([], None), map[], map[], map[1 := batch], {}, None);
      this.power := power;
      new;
      ghost var m, f := manifest, files;
      var cmd := Command(Received, CaseReceived, "system", "S2-ACTOR-WORKSPACE", batch.revision, batch.ledgerHead,
                         commandId, map[], Plain(batch.recordId), 0);
      EmptyRunReceives(m, f, batch, cmd, power);
      var r := AppendTransition(cmd);
    }

    // ---- durable primitives ----

    /** `append_durable`: the whole line, or whatever piece the cut left. */
    method AppendDurable(e: Event) returns (alive: bool)
      modifies this
      ensures alive == (old(power).writes > 0)
      ensures files == if alive then Appended(old(files), e) else Torn(old(files), old(power).tear)
      ensures power == if alive then old(power).(writes := old(power).writes - 1) else old(power)
    {
      alive := Spend();
      if alive {
        files := Appended(files, e);
      } else {
        files := Torn(files, power.tear);
      }
    }

    /** One durable write, unless the power is gone. */
    method Spend() returns (alive: bool)
      modifies this`power
      ensures alive == (old(power).writes > 0)
      ensures power == if alive then old(power).(writes := old(power).writes - 1) else old(power)
    {
      alive := power.writes > 0;
      if alive {
        power := power.(writes := power.writes - 1);
      }
    }

    // ---- reading ----

    method ValidateCommitMarkers(events: seq<Event>) returns (ok: bool)
      ensures ok == MarkersBind(manifest, files.commits, events)
    {
      if |files.commits| != |events| {
        return false;
      }
      for i := 0 to |events|
        invariant forall k :: 0 <= k < i ==> MarkerBinds(manifest, files.commits, events[k], k + 1)
      {
        if !MarkerBinds(manifest, files.commits, events[i], i + 1) {
          return false;
        }
      }
      return true;
    }

    method ValidateEvents(events: seq<Event>) returns (ok: bool)
      ensures ok == AllValid(manifest, events)
    {
      for i := 0 to |events|
        invariant forall k :: 0 <= k < i ==> ValidEvent(manifest, events[k])
      {
        if !ValidEvent(manifest, events[i]) {
          return false;
        }
      }
      return true;
    }

    method ReadEvents() returns (r: Result<seq<Event>>)
      ensures r == Ledger.ReadEvents(manifest, files)
    {
      if files.journal.torn.Some? {
        return Err(Integrity);
      }
      var valid := ValidateEvents(files.journal.records);
      if !valid {
        return Err(Integrity);
      }
      var bound := ValidateCommitMarkers(files.journal.records);
      return if bound then Ok(files.journal.records) else Err(Integrity);
    }

    /** `_project`: one pass over the events, carrying state, active links, retired objects and the last digest. */
    method ReplayEvents(events: seq<Event>) returns (r: Result<Replay>)
      ensures r == Fold(manifest, files.snapshots, events)
    {
      hide Advance, Start;
      r := Start(manifest, files.snapshots);
      assert Fold(manifest, files.snapshots, events[..0]) == r;
      var i := 0;
      while i < |events|
        invariant 0 <= i <= |events| && r == Fold(manifest, files.snapshots, events[..i])
      {
        if r.Err? {
          RefusedPrefix(manifest, files.snapshots, events, i);
          return;
        }
        assert events[..i + 1][..i] == events[..i];
        r := Advance(manifest, files.snapshots, r.value, i + 1, events[i]);
        i := i + 1;
      }
      assert events[..i] == events;
    }

    method Project(events: seq<Event>) returns (r: Result<Projection>)
      ensures r == Ledger.Project(manifest, files.snapshots, files.freeze.Some?, events)
    {
      var replay := ReplayEvents(events);
      if replay.Err? {
        return Err(replay.error);
      }
      if replay.value.state.None? {
        return Err(Integrity);
      }
      return Ok(AsProjection(manifest, replay.value, |events|, files.freeze.Some?));
    }

    method Replay() returns (r: Result<Projection>)
      ensures r == Current(manifest, files)
    {
      var events := ReadEvents();
      if events.Err? {
        return Err(Integrity);
      }
      r := Project(events.value);
    }

    method FindCommand(events: seq<Event>, id: CommandId) returns (found: Option<Event>)
      ensures found == FirstWithCommand(events, id)
    {
      var i := 0;
      while i < |events|
        invariant 0 <= i <= |events|
        invariant FirstWithCommand(events, id) == FirstWithCommand(events[i..], id)
      {
        if events[i].body.commandId == id {
          return Some(events[i]);
        }
        i := i + 1;
      }
      return None;
    }

    method ScanForReservation(events: seq<Event>, a: Action, authority: string) returns (r: Result<bool>)
      ensures r == ScanReservations(events, a, authority)
    {
      var i := 0;
      while i < |events|
        invariant 0 <= i <= |events|
        invariant ScanReservations(events, a, authority) == ScanReservations(events[i..], a, authority)
      {
        if IsReservation(events[i]) {
          var d := events[i].body.decision;
          if d.idempotencyKey == a.terms.idempotencyKey {
            return if d.contract == a.contract && d.authority == authority then Ok(true) else Err(Integrity);
          }
          if d.businessKey == a.terms.businessKey || d.authority == authority {
            return Err(Integrity);
          }
        }
        i := i + 1;
      }
      return Ok(false);
    }

    // ---- writing ----

    /** The three durable writes of one event: line, marker, checkpoint. */
    method CommitEvent(e: Event) returns (r: Result<Projection>)
      modifies this
      ensures (files, r) == CommitRun(manifest, old(files), e, old(power))
    {
      hide Fold, ValidEvent;
      var alive := AppendDurable(e);
      if !alive {
        return Err(Crash);
      }
      alive := power.writes > 0;
      if !alive {
        return Err(Crash);
      }
      if e.body.sequence in files.commits {
        return Err(Integrity);
      }
      alive := Spend();
      files := files.(commits := files.commits[e.body.sequence := MarkerOf(manifest, e, e.body.sequence)]);
      r := Project(files.journal.records);
      if r.Err? {
        return;
      }
      alive := Spend();
      if !alive {
        return Err(Crash);
      }
      if r.value.sequence in files.checkpoints {
        return Err(Integrity);
      }
      files := files.(checkpoints := files.checkpoints[r.value.sequence := r.value]);
    }

    /** `_append_transition` under the writer lock. */
    method AppendTransition(cmd: Command) returns (r: Result<Projection>)
      modifies this
      ensures (files, r) == AppendRun(manifest, old(files), cmd, old(power))
      ensures old(LedgerInv(manifest, files)) && !IsRevision(cmd.eventType)
              ==> && LedgerInv(manifest, files) && Grows(old(files), files)
                  && WroteIf(old(files), files, old(MayAppend(manifest, files, cmd)), old(power).writes, 2, r.Ok?)
                  && (GainedOne(old(files), files) ==> Says(manifest, Newest(files), cmd))
    {
      hide Fold, Advance, MayEnter, EventFor, CommitRun, LedgerInv, Grows, MayAppend, WroteIf, Says, AppendRun;
      if old(LedgerInv(manifest, files)) && !IsRevision(cmd.eventType) {
        AppendKeeps(manifest, files, cmd, power);
        AppendWritesExactly(manifest, files, cmd, power);
      }
      r := AppendChecked(cmd);
    }

    method AppendChecked(cmd: Command) returns (r: Result<Projection>)
      modifies this
      ensures (files, r) == AppendRun(manifest, old(files), cmd, old(power))
    {
      hide Fold, CommitRun, MayEnter, EventFor, ValidEvent, LoadBatch, FirstWithCommand, Ledger.ReadEvents;
      if files.freeze.Some? {
        return Err(Frozen);
      }
      var events := ReadEvents();
      if events.Err? {
        return Err(events.error);
      }
      var replay := ReplayEvents(events.value);
      if replay.Err? {
        return Err(replay.error);
      }
      var earlier := FindCommand(events.value, cmd.commandId);
      if earlier.Some? {
        if earlier.value.body.commandDigest != OfCommand(cmd) {
          return Err(Stale);
        }
        r := Project(events.value);
        return;
      }
      var current := replay.value;
      if current.revision != cmd.expectedRevision || current.head != cmd.expectedHead {
        return Err(Stale);
      }
      if !MayEnter(current.state, cmd) {
        return Err(Illegal);
      }
      var batch := LoadBatch(manifest, files.snapshots, current.revision);
      if batch.Err? {
        return Err(batch.error);
      }
      var e := EventFor(manifest, current, cmd, |events.value| + 1, batch.value.committedAt);
      if !ValidEvent(manifest, e) {
        return Err(Integrity);
      }
      r := CommitEvent(e);
    }

    /** `reserve_action`: consume the exact authority and own one idempotency key in one event. */
    method ReserveAction(a: Action, authority: Authority, commandId: CommandId) returns (r: Result<Projection>)
      modifies this
      ensures (files, r) == ReserveRun(manifest, old(files), a, authority, commandId, old(power))
      ensures old(LedgerInv(manifest, files)) ==> LedgerInv(manifest, files) && Grows(old(files), files)
      ensures old(LedgerInv(manifest, files)) && old(ReservationsDistinct(Committed(files)))
              ==> ReservationsDistinct(Committed(files))
      ensures old(LedgerInv(manifest, files))
              ==> && WroteIf(old(files), files, old(MayReserve(manifest, files, a, authority, commandId)),
                             old(power).writes, 2, r.Ok?)
                  && (GainedOne(old(files), files) ==> SaysReserved(Newest(files), a, authority, commandId))
                  && (r.Ok? ==> authority.payload == a.terms.payload && authority.id == a.terms.authorityReference)
    {
      hide Fold, CommitRun, LedgerInv, Grows, ReservationsDistinct, ScanReservations, AcceptableHeads,
           ReservationCommand, AppendPlan, Ledger.ReadEvents, Ledger.Project, AuthorityBinds, MayReserve, WroteIf,
           SaysReserved, Committed, ReserveRun, AlreadyReserved;
      if old(LedgerInv(manifest, files)) {
        ReserveWritesExactly(manifest, files, a, authority, commandId, power);
        ReserveCallKeeps(manifest, files, a, authority, commandId, power);
      }
      r := ReserveChecked(a, authority, commandId);
    }

    method ReserveChecked(a: Action, authority: Authority, commandId: CommandId) returns (r: Result<Projection>)
      modifies this
      ensures (files, r) == ReserveRun(manifest, old(files), a, authority, commandId, old(power))
    {
      hide Fold, CommitRun, ScanReservations, AcceptableHeads, ReservationCommand, AppendPlan, Ledger.ReadEvents,
           Ledger.Project, AuthorityBinds;
      if !AuthorityBinds(a, authority) {
        return Err(Integrity);
      }
      var events := ReadEvents();
      if events.Err? {
        return Err(events.error);
      }
      r := Project(events.value);
      if r.Err? {
        return;
      }
      var current := r.value;
      var retry := ScanForReservation(events.value, a, authority.id);
      if retry.Err? {
        return Err(retry.error);
      }
      if retry.value {
        return;
      }
      if current.state != ActionPrepared {
        return Err(Integrity);
      }
      if current.caseId != a.terms.caseId || current.revision != a.terms.caseRevision {
        return Err(Stale);
      }
      if events.value == [] || a.terms.ledgerHead !in AcceptableHeads(current.head, events.value[|events.value| - 1]) {
        return Err(Stale);
      }
      r := AppendChecked(ReservationCommand(a, authority, current, commandId));
    }

    /** `revise_source`: snapshot first, then the event that pins it. */
    method ReviseSource(batch: Batch, eventType: EventType, actorKind: string, actorId: string, expectedRevision: int,
                        expectedHead: Digest, commandId: CommandId) returns (r: Result<Projection>)
      modifies this
      ensures var plan := RevisePlan(manifest, old(files), batch, eventType, actorKind, actorId, expectedRevision,
                                     expectedHead, commandId);
              (files, r) == RevisionRun(manifest, old(files), plan, old(power))
      ensures old(LedgerInv(manifest, files)) && eventType == SourceRevisionChanged
              && old(commandId !in CommandIds(files.journal.records))
              ==> && LedgerInv(manifest, files) && Grows(old(files), files)
                  && WroteIf(old(files), files, old(MayRevise(manifest, files, batch, expectedRevision, expectedHead)),
                             old(power).writes, 3, r.Ok?)
                  && (GainedOne(old(files), files)
                      ==> SaysRevised(manifest, old(files), Newest(files), batch)
                          && RetiresAll(old(Committed(files)), Newest(files).body.decision))
    {
      hide Fold, CommitRun, LedgerInv, SortedValues, Grows, Ledger.ReadEvents, Ledger.Project, RevisePlan, RevisionRun,
           MayRevise, WroteIf, SaysRevised, RetiresAll, Committed, CommandIds;
      if old(LedgerInv(manifest, files)) && eventType == SourceRevisionChanged
         && commandId !in CommandIds(files.journal.records) {
        ReviseWrites(manifest, files, batch, actorKind, actorId, expectedRevision, expectedHead, commandId, power);
      }
      r := ReviseChecked(batch, eventType, actorKind, actorId, expectedRevision, expectedHead, commandId);
    }

    method ReviseChecked(batch: Batch, eventType: EventType, actorKind: string, actorId: string, expectedRevision: int,
                         expectedHead: Digest, commandId: CommandId) returns (r: Result<Projection>)
      modifies this
      ensures var plan := RevisePlan(manifest, old(files), batch, eventType, actorKind, actorId, expectedRevision,
                                     expectedHead, commandId);
              (files, r) == RevisionRun(manifest, old(files), plan, old(power))
    {
      hide Fold, CommitRun, SortedValues, Ledger.ReadEvents, Ledger.Project;
      if files.freeze.Some? {
        return Err(Frozen);
      }
      r := Replay();
      if r.Err? {
        return;
      }
      var current := r.value;
      if current.revision != expectedRevision || current.head != expectedHead {
        return Err(Stale);
      }
      if !BatchFollows(current, batch) {
        return Err(Integrity);
      }
      var target := RevisionTarget(current.state);
      if target.Err? {
        return Err(target.error);
      }
      var cmd := Command(target.value, eventType, actorKind, actorId, expectedRevision, expectedHead, commandId, map[],
                         Invalidation(SortedValues(current.active)), 0);
      r := CommitRevision(batch, RevisionEvent(manifest, current, batch, cmd));
    }

    method CommitRevision(batch: Batch, e: Event) returns (r: Result<Projection>)
      modifies this
      ensures batch.revision in old(files).snapshots ==> files == old(files) && r == Err(Integrity)
      ensures batch.revision !in old(files).snapshots
              ==> (files, r) == RevisionRun(manifest, old(files), Ok(RevisionPlan(batch, e)), old(power))
    {
      hide CommitRun;
      if batch.revision in files.snapshots {
        return Err(Integrity);
      }
      var alive := Spend();
      if !alive {
        return Err(Crash);
      }
      files := WithSnapshot(files, batch);
      r := CommitEvent(e);
    }

    /** `reopen_with_revision`: one event that starts a new revision and names the closure it preserves. */
    method ReopenWithRevision(batch: Batch, expectedRevision: int, expectedHead: Digest, commandId: CommandId)
      returns (r: Result<Projection>)
      modifies this
      ensures (files, r) == RevisionRun(manifest, old(files),
                                        ReopenPlan(manifest, old(files), batch, expectedRevision, expectedHead,
                                                   commandId),
                                        old(power))
      ensures old(LedgerInv(manifest, files)) && old(commandId !in CommandIds(files.journal.records))
              ==> && LedgerInv(manifest, files) && Grows(old(files), files)
                  && WroteIf(old(files), files, old(MayReopen(manifest, files, batch, expectedRevision, expectedHead)),
                             old(power).writes, 3, r.Ok?)
                  && (GainedOne(old(files), files)
                      ==> SaysRevised(manifest, old(files), Newest(files), batch)
                          && RetiresAll(old(Committed(files)), Newest(files).body.decision))
    {
      hide Fold, CommitRun, LedgerInv, SortedValues, Grows, Ledger.ReadEvents, Ledger.Project, ReopenPlan, RevisionRun,
           MayReopen, WroteIf, SaysRevised, RetiresAll, Committed, CommandIds;
      if old(LedgerInv(manifest, files)) && commandId !in CommandIds(files.journal.records) {
        ReopenWrites(manifest, files, batch, expectedRevision, expectedHead, commandId, power);
      }
      r := ReopenChecked(batch, expectedRevision, expectedHead, commandId);
    }

    method ReopenChecked(batch: Batch, expectedRevision: int, expectedHead: Digest, commandId: CommandId)
      returns (r: Result<Projection>)
      modifies this
      ensures (files, r) == RevisionRun(manifest, old(files),
                                        ReopenPlan(manifest, old(files), batch, expectedRevision, expectedHead,
                                                   commandId),
                                        old(power))
    {
      hide Fold, CommitRun, SortedValues, Ledger.ReadEvents, Ledger.Project;
      if files.freeze.Some? {
        return Err(Frozen);
      }
      r := Replay();
      if r.Err? {
        return;
      }
      var current := r.value;
      if current.state != Closed {
        return Err(Integrity);
      }
      if current.revision != expectedRevision || current.head != expectedHead {
        return Err(Stale);
      }
      if !BatchFollows(current, batch) {
        return Err(Integrity);
      }
      var closure := if ClosureId in current.active then Some(current.active[ClosureId]) else None;
      var cmd := Command(EvidenceBlocked, CaseReopened, "deterministic_control", "S2-ACTOR-REOPEN-CONTROL",
                         expectedRevision, expectedHead, commandId, map[],
                         Reopening(SortedValues(current.active), closure, current.revision), 0);
      r := CommitRevision(batch, RevisionEvent(manifest, current, batch, cmd));
    }

    /** The recovery decision: nothing to do, or which tail to cut. */
    method ExamineTail() returns (r: Result<RecoveryPlan>)
      ensures r == RecoverPlan(manifest, files)
    {
      hide Fold, ValidEvent;
      var records := files.journal.records;
      if files.freeze.Some? {
        return Err(Frozen);
      }
      if records == [] && files.journal.torn.None? {
        return Err(Integrity);
      }
      var valid := ValidateEvents(records);
      if !valid {
        return Err(Integrity);
      }
      if files.journal.torn.None? && |files.commits| == |records| {
        var bound := ValidateCommitMarkers(records);
        if !bound {
          return Err(Integrity);
        }
        var current := Project(records);
        return if current.Ok? then Ok(AlreadyWhole(current.value)) else Err(current.error);
      }
      var prefix := if files.journal.torn.None? then records[..|records| - 1] else records;
      if (files.journal.torn.None? && |records| < 2) || records == [] {
        return Err(Integrity);
      }
      var bound := ValidateCommitMarkers(prefix);
      if !bound {
        return Err(Integrity);
      }
      if files.journal.torn.None? {
        var suffix := Project(records);
        if suffix.Err? {
          return Err(suffix.error);
        }
      }
      var previous := Project(prefix);
      if previous.Err? {
        return Err(previous.error);
      }
      return Ok(DropTail(if files.journal.torn.None? then WholeEvent(records[|records| - 1])
                         else TornBytes(files.journal.torn.value), previous.value));
    }

    /** `recover_partial_tail`. */
    method RecoverPartialTail() returns (r: Result<Projection>)
      modifies this
      ensures (files, r) == RecoverRun(manifest, old(files), old(power))
      ensures old(LedgerInv(manifest, files)) ==> RecoveryOutcome(manifest, old(files), files, r)
    {
      hide Fold, LedgerInv, RecoverPlan, AppendPlan, RecoveryOutcome;
      if old(LedgerInv(manifest, files)) {
        RecoveryKeeps(manifest, files, power);
      }
      var plan := ExamineTail();
      if plan.Err? {
        return Err(plan.error);
      }
      if plan.value.AlreadyWhole? {
        return Ok(plan.value.current);
      }
      var tail := plan.value.tail;
      if tail in files.quarantine {
        return Err(Integrity);
      }
      var alive := Spend();
      if !alive {
        return Err(Crash);
      }
      files := Quarantined(files, tail);
      alive := Spend();
      if !alive {
        return Err(Crash);
      }
      files := Truncated(files, tail);
      r := AppendChecked(RecoveryCommand(tail, plan.value.previous));
    }

    /** `resume`: every checkpoint file is checked against the events before the projection is returned. */
    method Resume() returns (r: Result<Projection>)
      ensures LedgerInv(manifest, files) && Tidy(files)
              ==> r == Ledger.Project(manifest, files.snapshots, files.freeze.Some?, Committed(files))
      ensures r.Ok? ==> forall k :: k in files.checkpoints
                                    ==> CheckpointValid(manifest, files, files.checkpoints[k], files.journal.records)
    {
      hide Fold;
      if LedgerInv(manifest, files) && Tidy(files) {
        ReadableIffTidy(manifest, files);
        CheckpointsAreValid(manifest, files);
      }
      hide LedgerInv;
      var events := ReadEvents();
      if events.Err? {
        return Err(Integrity);
      }
      var left := files.checkpoints.Keys;
      while left != {}
        invariant left <= files.checkpoints.Keys
        invariant forall k :: k in files.checkpoints && k !in left
                    ==> CheckpointValid(manifest, files, files.checkpoints[k], events.value)
        decreases left
      {
        ghost var some := SomeKey(left);
        var k: int :| k in left;
        if !CheckpointValid(manifest, files, files.checkpoints[k], events.value) {
          return Err(Integrity);
        }
        left := left - {k};
      }
      r := Project(events.value);
    }

    /** `freeze`: after it, every ledger writer refuses. */
    method Freeze() returns (r: Result<FreezeRecord>)
      modifies this
      ensures (files, r) == FreezeRun(manifest, old(files), old(power))
      ensures old(LedgerInv(manifest, files)) && r.Ok?
              ==> && files == old(files).(freeze := Some(r.value)) && Committed(files) != []
                  && r.value == FreezeRecord(Newest(files).body.revision, Newest(files).digest)
    {
      hide Fold, LedgerInv, Tidy;
      if LedgerInv(manifest, files) {
        FreezeSealsHead(manifest, files, power);
      }
      if files.freeze.Some? {
        return Err(Frozen);
      }
      var current := Replay();
      if current.Err? {
        return Err(current.error);
      }
      var alive := Spend();
      if !alive {
        return Err(Crash);
      }
      var record := FreezeRecord(current.value.revision, current.value.head);
      files := files.(freeze := Some(record));
      return Ok(record);
    }
  }

  // ---- what the calls keep ----

  lemma CheckpointsAreValid(m: Manifest, f: Files)
    requires LedgerInv(m, f) && Tidy(f)
    ensures forall k :: k in f.checkpoints ==> CheckpointValid(m, f, f.checkpoints[k], f.journal.records)
  {
    hide Fold;
    forall k | k in f.checkpoints ensures CheckpointValid(m, f, f.checkpoints[k], f.journal.records) {
      GrowsFromItself(f);
      CheckpointStaysValid(m, f, f, k);
    }
  }

  lemma SomeKey<T>(keys: set<T>) returns (k: T)
    requires keys != {}
    ensures k in keys
  {
    k :| k in keys;
  }

  lemma EmptyRunAccepts(m: Manifest, f: Files, batch: Batch, cmd: Command)
    requires m == Manifest(m.runId, batch.caseId, batch.ledgerHead, batch.revision, OfBatch(batch))
             && batch.revision >= 1
    requires f == Files(Journal([], None), map[], map[], map[1 := batch], {}, None)
    requires cmd.target == Received && cmd.eventType == CaseReceived && cmd.links == map[]
    requires cmd.expectedRevision == batch.revision && cmd.expectedHead == batch.ledgerHead
    ensures LedgerInv(m, f) && Tidy(f)
    ensures AppendPlan(m, f, cmd).Ok? && AppendPlan(m, f, cmd).value.Commit?
  {
    assert f.journal.records == [];
    assert |f.commits| == 0;
  }

  lemma EmptyRunReceives(m: Manifest, f: Files, batch: Batch, cmd: Command, power: Power)
    requires m == Manifest(m.runId, batch.caseId, batch.ledgerHead, batch.revision, OfBatch(batch))
             && batch.revision >= 1
    requires f == Files(Journal([], None), map[], map[], map[1 := batch], {}, None)
    requires cmd.target == Received && cmd.eventType == CaseReceived && cmd.links == map[]
    requires cmd.expectedRevision == batch.revision && cmd.expectedHead == batch.ledgerHead
    ensures var g := AppendRun(m, f, cmd, power).0;
            && LedgerInv(m, g) && g.freeze.None?
            && (if power.writes >= 2
                then Tidy(g) && |Committed(g)| == 1 && Committed(g)[0].body.eventType == CaseReceived
                     && Committed(g)[0].body.toState == Received
                else Committed(g) == [])
  {
    hide Fold, AppendPlan, LedgerInv, CommitRun, ValidEvent, Grows;
    EmptyRunAccepts(m, f, batch, cmd);
    AppendAgreesWithReplay(m, f, cmd);
    CommitKeeps(m, f, AppendPlan(m, f, cmd).value.event, power);
  }

  /** Reserving keeps the ledger invariant, and the only reservation it can add clashes with no earlier one. */
  lemma ReserveKeeps(m: Manifest, f: Files, a: Action, authority: Authority, commandId: CommandId, power: Power)
    requires LedgerInv(m, f)
    ensures var plan := ReservePlan(m, f, a, authority, commandId);
            plan.Ok? && plan.value.Commit?
            ==> var g := CommitRun(m, f, plan.value.event, power).0;
                && LedgerInv(m, g) && Grows(f, g) && g.snapshots == f.snapshots
                && (Committed(g) == Committed(f) || Committed(g) == Committed(f) + [plan.value.event])
                && IsReservation(plan.value.event) && plan.value.event.body.toState == ActionReserved
                && (ReservationsDistinct(Committed(f)) ==> ReservationsDistinct(Committed(g)))
    ensures Grows(f, f)
  {
    hide Fold, Project, LedgerInv, CommitRun, AppendPlan, ReservePlan, ReservationsDistinct, Grows, Committed, Tidy,
         Unclaimed, FreshCommand, LinkFits, BuiltOn;
    var plan := ReservePlan(m, f, a, authority, commandId);
    GrowsFromItself(f);
    if plan.Ok? && plan.value.Commit? {
      var cmd := ReserveIsAppend(m, f, a, authority, commandId, power);
      ReserveCommitsExactly(m, f, a, authority, commandId);
      PlannedIsAcceptable(m, f, cmd);
      CommitKeeps(m, f, plan.value.event, power);
      ReadsWhenTidy(m, f);
      if ReservationsDistinct(Committed(f)) {
        ReserveKeepsDistinct(m, f, a, authority, commandId);
      }
    }
  }

  /** What the method says of a reservation it made. */
  lemma ReserveCallKeeps(m: Manifest, f: Files, a: Action, authority: Authority, commandId: CommandId, power: Power)
    requires LedgerInv(m, f)
    ensures var g := ReserveRun(m, f, a, authority, commandId, power).0;
            && LedgerInv(m, g) && Grows(f, g)
            && (ReservationsDistinct(Committed(f)) ==> ReservationsDistinct(Committed(g)))
  {
    hide Fold, LedgerInv, CommitRun, ReservePlan, ReservationsDistinct, Grows, Committed;
    ReserveKeeps(m, f, a, authority, commandId, power);
  }

  lemma ReviseWrites(m: Manifest, f: Files, batch: Batch, actorKind: string, actorId: string, expectedRevision: int,
                     expectedHead: Digest, commandId: CommandId, power: Power)
    requires LedgerInv(m, f) && commandId !in CommandIds(f.journal.records)
    ensures var plan := RevisePlan(m, f, batch, SourceRevisionChanged, actorKind, actorId, expectedRevision,
                                   expectedHead, commandId);
            var (g, r) := RevisionRun(m, f, plan, power);
            && LedgerInv(m, g) && Grows(f, g)
            && WroteIf(f, g, MayRevise(m, f, batch, expectedRevision, expectedHead), power.writes, 3, r.Ok?)
            && (GainedOne(f, g) ==> SaysRevised(m, f, Newest(g), batch)
                                    && RetiresAll(Committed(f), Newest(g).body.decision))
  {
    hide Fold, LedgerInv, RevisePlan, RevisionRun, SaysRevised, RetiresAll, CommandIds, Committed, RevisionReplays,
         RevisionWellMade, Tidy, Grows;
    ReviseKeeps(m, f, batch, SourceRevisionChanged, actorKind, actorId, expectedRevision, expectedHead, commandId,
                power);
    var plan := RevisePlan(m, f, batch, SourceRevisionChanged, actorKind, actorId, expectedRevision, expectedHead,
                           commandId);
    ReviseCommitsExactly(m, f, batch, SourceRevisionChanged, actorKind, actorId, expectedRevision, expectedHead,
                         commandId);
    if plan.Ok? {
      ReviseAgreesWithReplay(m, f, batch, SourceRevisionChanged, actorKind, actorId, expectedRevision, expectedHead,
                             commandId);
      RevisionWritesExactly(m, f, plan.value, power);
    } else {
      RefusedRevision(m, f, plan.error, power);
    }
  }

  lemma ReopenWrites(m: Manifest, f: Files, batch: Batch, expectedRevision: int, expectedHead: Digest,
                     commandId: CommandId, power: Power)
    requires LedgerInv(m, f) && commandId !in CommandIds(f.journal.records)
    ensures var plan := ReopenPlan(m, f, batch, expectedRevision, expectedHead, commandId);
            var (g, r) := RevisionRun(m, f, plan, power);
            && LedgerInv(m, g) && Grows(f, g)
            && WroteIf(f, g, MayReopen(m, f, batch, expectedRevision, expectedHead), power.writes, 3, r.Ok?)
            && (GainedOne(f, g) ==> SaysRevised(m, f, Newest(g), batch)
                                    && RetiresAll(Committed(f), Newest(g).body.decision))
  {
    hide Fold, LedgerInv, ReopenPlan, RevisionRun, SaysRevised, RetiresAll, CommandIds, Committed, RevisionReplays,
         RevisionWellMade, Tidy, Grows;
    ReopenKeeps(m, f, batch, expectedRevision, expectedHead, commandId, power);
    var plan := ReopenPlan(m, f, batch, expectedRevision, expectedHead, commandId);
    ReopenCommitsExactly(m, f, batch, expectedRevision, expectedHead, commandId);
    if plan.Ok? {
      ReopenAgreesWithReplay(m, f, batch, expectedRevision, expectedHead, commandId);
      RevisionWritesExactly(m, f, plan.value, power);
    } else {
      RefusedRevision(m, f, plan.error, power);
    }
  }

  lemma RefusedRevision(m: Manifest, f: Files, error: Error, power: Power)
    ensures RevisionRun(m, f, Err(error), power) == (f, Err(error))
  {
  }

  lemma NotFrozenWhenAppending(m: Manifest, f: Files, cmd: Command)
    requires AppendPlan(m, f, cmd).Ok?
    ensures f.freeze.None?
  {
  }

  lemma ReviseKeeps(m: Manifest, f: Files, batch: Batch, eventType: EventType, actorKind: string, actorId: string,
                    expectedRevision: int, expectedHead: Digest, commandId: CommandId, power: Power)
    requires LedgerInv(m, f) && eventType == SourceRevisionChanged && commandId !in CommandIds(f.journal.records)
    ensures Grows(f, f)
    ensures var plan := RevisePlan(m, f, batch, eventType, actorKind, actorId, expectedRevision, expectedHead,
                                   commandId);
            plan.Ok?
            ==> var g := RevisionRun(m, f, plan, power).0;
                LedgerInv(m, g) && Grows(f, g)
                && (Committed(g) == Committed(f) || Committed(g) == Committed(f) + [plan.value.event])
                && plan.value.event.body.eventType == SourceRevisionChanged
                && plan.value.event.body.toState == EvidenceBlocked
  {
    hide Fold, LedgerInv, CommitRun, SortedValues, Grows;
    var plan := RevisePlan(m, f, batch, eventType, actorKind, actorId, expectedRevision, expectedHead, commandId);
    if plan.Ok? {
      ReadableIffTidy(m, f);
      ReviseAgreesWithReplay(m, f, batch, eventType, actorKind, actorId, expectedRevision, expectedHead, commandId);
      RevisionKeeps(m, f, plan.value, power);
    }
    GrowsFromItself(f);
  }

  lemma ReopenKeeps(m: Manifest, f: Files, batch: Batch, expectedRevision: int, expectedHead: Digest,
                    commandId: CommandId, power: Power)
    requires LedgerInv(m, f) && commandId !in CommandIds(f.journal.records)
    ensures Grows(f, f)
    ensures var plan := ReopenPlan(m, f, batch, expectedRevision, expectedHead, commandId);
            plan.Ok?
            ==> var g := RevisionRun(m, f, plan, power).0;
                LedgerInv(m, g) && Grows(f, g)
                && (Committed(g) == Committed(f) || Committed(g) == Committed(f) + [plan.value.event])
                && plan.value.event.body.eventType == CaseReopened
                && plan.value.event.body.toState == EvidenceBlocked
  {
    hide Fold, LedgerInv, CommitRun, SortedValues, Grows;
    var plan := ReopenPlan(m, f, batch, expectedRevision, expectedHead, commandId);
    if plan.Ok? {
      ReadableIffTidy(m, f);
      ReopenAgreesWithReplay(m, f, batch, expectedRevision, expectedHead, commandId);
      RevisionKeeps(m, f, plan.value, power);
    }
    GrowsFromItself(f);
  }
}
