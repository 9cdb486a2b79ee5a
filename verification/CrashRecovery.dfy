/** Every ledger call keeps the invariant under every crash, and tail recovery lands on one of two histories. */
module CrashRecovery {
  import opened Results
  import opened Workflow
  import opened Records
  import opened Journals
  import opened Ledger
  import opened Writers
  import opened LedgerInvariant

  /** The meaning of a projection, apart from its position in the chain. */
  datatype Material = Material(
    state: WorkflowState,
    revision: int,
    cut: string,
    pin: string,
    snapshot: Digest,
    active: Links,
    invalidated: seq<string>)

  function MaterialOf(p: Projection): Material {
    Material(p.state, p.revision, p.cut, p.pin, p.snapshot, p.active, p.invalidated)
  }

  /** What the committed events of a ledger mean; the reader's own answer on a tidy ledger. */
  function Meaning(m: Manifest, f: Files): Result<Material> {
    var p :- Project(m, f.snapshots, false, Committed(f));
    Ok(MaterialOf(p))
  }

  // ---- append ----

  /** A general append keeps the invariant under every crash, and commits at most the one event it planned. */
  lemma AppendKeeps(m: Manifest, f: Files, cmd: Command, power: Power)
    requires LedgerInv(m, f) && !IsRevision(cmd.eventType)
    ensures var (g, r) := AppendRun(m, f, cmd, power);
            && LedgerInv(m, g) && Grows(f, g) && g.snapshots == f.snapshots
            && (Committed(g) != Committed(f)
                ==> && AppendPlan(m, f, cmd).Ok? && AppendPlan(m, f, cmd).value.Commit?
                    && Committed(g) == Committed(f) + [AppendPlan(m, f, cmd).value.event])
            && (r.Ok? ==> Tidy(g) && r == Project(m, g.snapshots, false, Committed(g)))
  {
    hide Fold, Project, LedgerInv, ReadEvents, MayEnter, EventFor, ValidEvent, CommitRun;
    ReadableIffTidy(m, f);
    var plan := AppendPlan(m, f, cmd);
    if plan.Ok? && plan.value.Commit? {
      AppendAgreesWithReplay(m, f, cmd);
      CommitKeeps(m, f, plan.value.event, power);
    }
  }

  lemma GrowsFromItself(f: Files)
    ensures Grows(f, f)
  {
  }

  // ---- revisions ----

  lemma SnapshotKeeps(m: Manifest, f: Files, batch: Batch)
    requires LedgerInv(m, f) && batch.revision !in f.snapshots
    ensures LedgerInv(m, WithSnapshot(f, batch)) && Grows(f, WithSnapshot(f, batch))
    ensures Committed(WithSnapshot(f, batch)) == Committed(f)
  {
    var g := WithSnapshot(f, batch);
    FoldFrame(m, f.snapshots, g.snapshots, f.journal.records);
    CommittedReplays(m, f);
    CheckpointsSurvive(m, f, g);
  }

  /** A planned revision that replays keeps the invariant under every crash, snapshot write included. */
  lemma RevisionKeeps(m: Manifest, f: Files, plan: RevisionPlan, power: Power)
    requires LedgerInv(m, f) && Tidy(f) && f.freeze.None?
    requires plan.batch.revision !in f.snapshots && RevisionReplays(m, f, plan) && RevisionWellMade(m, f, plan)
    ensures var (g, r) := RevisionRun(m, f, Ok(plan), power);
            && LedgerInv(m, g)
            && Committed(g) == (if power.writes >= 3 then Committed(f) + [plan.event] else Committed(f))
            && Grows(f, g)
            && (r.Ok? ==> Tidy(g) && r == Project(m, g.snapshots, false, Committed(g)))
            && (r.Err? ==> r == Err(Crash))
  {
    hide Fold, Advance, Start, EnterRevision, LoadBatch, Grows;
    SnapshotKeeps(m, f, plan.batch);
    if power.writes > 0 {
      CommitKeeps(m, WithSnapshot(f, plan.batch), plan.event, power.(writes := power.writes - 1));
      GrowsVia(f, WithSnapshot(f, plan.batch), RevisionRun(m, f, Ok(plan), power).0);
    } else {
      GrowsFromItself(f);
    }
  }

  // ---- recovery ----

  /** What lies past the committed records of an untidy ledger. */
  function TailOf(f: Files): LedgerTail
    requires !Tidy(f)
  {
    if f.journal.torn.Some? then TornBytes(f.journal.torn.value)
    else WholeEvent(f.journal.records[|f.journal.records| - 1])
  }

  /** On a run nobody tampered with, recovery finds exactly the tail and the projection of what precedes it. */
  lemma RecoveryFindsTail(m: Manifest, f: Files)
    requires LedgerInv(m, f) && f.freeze.None? && Committed(f) != []
    ensures var p := Project(m, f.snapshots, false, Committed(f));
            && p.Ok?
            && RecoverPlan(m, f) == Ok(if Tidy(f) then AlreadyWhole(p.value) else DropTail(TailOf(f), p.value))
  {
    var records := f.journal.records;
    MarkerKeys(m, f.commits, Committed(f));
    CommittedReplays(m, f);
    FoldFacts(m, f.snapshots, Committed(f));
    FoldFacts(m, f.snapshots, records);
    assert |f.commits| == |Committed(f)|;
  }

  /** Cutting the tail off leaves the committed records, tidy. */
  lemma TruncationTidies(m: Manifest, f: Files)
    requires LedgerInv(m, f) && !Tidy(f)
    ensures var g := Truncated(Quarantined(f, TailOf(f)), TailOf(f));
            LedgerInv(m, g) && Tidy(g) && Committed(g) == Committed(f) && Grows(f, g)
  {
    var g := Truncated(Quarantined(f, TailOf(f)), TailOf(f));
    MarkerKeys(m, f.commits, Committed(f));
    CommittedReplays(m, f);
    assert g.journal.records == Committed(f);
    CheckpointsSurvive(m, f, g);
  }

  lemma QuarantineKeeps(m: Manifest, f: Files, tail: LedgerTail)
    requires LedgerInv(m, f)
    ensures LedgerInv(m, Quarantined(f, tail)) && Committed(Quarantined(f, tail)) == Committed(f)
    ensures Grows(f, Quarantined(f, tail))
  {
    CommittedReplays(m, f);
    CheckpointsSurvive(m, f, Quarantined(f, tail));
  }

  predicate IsTrace(t: EventType) {
    t in {PartialTailRecovered, UncommittedEventRecovered}
  }

  /** The trace names the tail it stands for, and which of the two kinds of tail it was. */
  predicate Traces(e: Event, tail: LedgerTail) {
    && e.body.decision == TailRecovery(OfTail(tail))
    && e.body.eventType == (match tail
                            case TornBytes(_) => PartialTailRecovered
                            case WholeEvent(_) => UncommittedEventRecovered)
  }

  /**
   * What recovery may leave: the invariant, every committed event, and at most its own trace event on top. Nothing is
   * cut off before it is in quarantine, and the trace names what was cut.
   */
  ghost predicate RecoveryOutcome(m: Manifest, f: Files, g: Files, r: Result<Projection>) {
    && LedgerInv(m, g) && Grows(f, g) && g.snapshots == f.snapshots
    && (Committed(g) != Committed(f)
        ==> |Committed(g)| > 0 && IsTrace(Committed(g)[|Committed(g)| - 1].body.eventType))
    && (Committed(g) != Committed(f) ==> !Tidy(f) && Traces(Committed(g)[|Committed(g)| - 1], TailOf(f)))
    && (g.journal != f.journal ==> !Tidy(f) && TailOf(f) in g.quarantine)
    && (r.Ok? ==> Tidy(g) && r == Project(m, g.snapshots, false, Committed(g)))
  }

  /** Recovery may die at any write of its own. */
  lemma RecoveryKeeps(m: Manifest, f: Files, power: Power)
    requires LedgerInv(m, f)
    ensures var (g, r) := RecoverRun(m, f, power); RecoveryOutcome(m, f, g, r)
  {
    hide Fold, LedgerInv, RecoverPlan, AppendRun;
    var plan := RecoverPlan(m, f);
    if Committed(f) == [] {
      RecoveryNeedsPrefix(m, f);
    } else if f.freeze.None? {
      RecoveryFindsTail(m, f);
      if !Tidy(f) {
        QuarantineKeeps(m, f, TailOf(f));
        if power.writes >= 2 {
          TraceKeeps(m, f, plan.value.previous, power.(writes := power.writes - 2));
        }
      }
    } else {
      FrozenRefusesRecovery(m, f);
    }
  }

  lemma FrozenRefusesRecovery(m: Manifest, f: Files)
    requires f.freeze.Some?
    ensures RecoverPlan(m, f) == Err(Frozen)
  {
  }

  lemma TraceKeeps(m: Manifest, f: Files, previous: Projection, power: Power)
    requires LedgerInv(m, f) && !Tidy(f)
    ensures var tail := TailOf(f);
            var (g, r) := AppendRun(m, Truncated(Quarantined(f, tail), tail), RecoveryCommand(tail, previous), power);
            RecoveryOutcome(m, f, g, r)
  {
    hide Fold, LedgerInv, AppendRun, AppendPlan;
    var tail := TailOf(f);
    var t := Truncated(Quarantined(f, tail), tail);
    var cmd := RecoveryCommand(tail, previous);
    TruncationTidies(m, f);
    ReadableIffTidy(m, t);
    AppendKeeps(m, t, cmd, power);
    GrowsVia(f, t, AppendRun(m, t, cmd, power).0);
    if AppendPlan(m, t, cmd).Ok? && AppendPlan(m, t, cmd).value.Commit? {
      AppendAgreesWithReplay(m, t, cmd);
    }
  }

  lemma RecoveryNeedsPrefix(m: Manifest, f: Files)
    requires LedgerInv(m, f) && Committed(f) == []
    ensures RecoverPlan(m, f).Err?
  {
    MarkerKeys(m, f.commits, Committed(f));
  }

  lemma TraceIsAppendable(m: Manifest, g: Files, tail: LedgerTail, previous: Projection)
    requires LedgerInv(m, g) && Tidy(g) && g.freeze.None? && Committed(g) != []
    requires Project(m, g.snapshots, false, Committed(g)) == Ok(previous)
    requires RecoverTail(OfTail(tail)) !in CommandIds(Committed(g))
    ensures var plan := AppendPlan(m, g, RecoveryCommand(tail, previous));
            && plan.Ok? && plan.value.Commit?
            && Fold(m, g.snapshots, Committed(g) + [plan.value.event]).Ok?
            && Meaning(m, g) == Ok(MaterialOf(previous))
  {
    ReadableIffTidy(m, g);
    FoldFacts(m, g.snapshots, Committed(g));
    SearchFindsCommand(Committed(g), RecoverTail(OfTail(tail)));
    AppendAgreesWithReplay(m, g, RecoveryCommand(tail, previous));
  }

  /**
   * Recovery success. With a committed prefix, a quarantine name not used before, an unused recovery command ID
   * and no further crash, recovery returns a tidy ledger that means what the committed events meant; the tail is in
   * quarantine, and one trace event names it.
   */
  lemma RecoverySucceeds(m: Manifest, f: Files, power: Power)
    requires LedgerInv(m, f) && f.freeze.None? && Committed(f) != [] && power.writes >= 5
    requires !Tidy(f) ==> TailOf(f) !in f.quarantine && RecoverTail(OfTail(TailOf(f))) !in CommandIds(Committed(f))
    ensures var (g, r) := RecoverRun(m, f, power);
            && r.Ok? && Tidy(g) && LedgerInv(m, g)
            && Ok(MaterialOf(r.value)) == Meaning(m, f) == Meaning(m, g)
            && (if Tidy(f) then g == f
                else && TailOf(f) in g.quarantine && |Committed(g)| == |Committed(f)| + 1
                     && Traces(Committed(g)[|Committed(f)|], TailOf(f)))
  {
    hide Fold, LedgerInv, RecoverPlan, AppendRun, AppendPlan;
    RecoveryFindsTail(m, f);
    if !Tidy(f) {
      var previous := RecoverPlan(m, f).value.previous;
      var g := Truncated(Quarantined(f, TailOf(f)), TailOf(f));
      TruncationTidies(m, f);
      TraceIsAppendable(m, g, TailOf(f), previous);
      TraceKeepsMeaning(m, g, TailOf(f), previous, power.(writes := power.writes - 2));
    }
  }

  lemma TraceKeepsMeaning(m: Manifest, g: Files, tail: LedgerTail, previous: Projection, power: Power)
    requires LedgerInv(m, g) && Tidy(g) && g.freeze.None? && Committed(g) != [] && power.writes >= 3
    requires Project(m, g.snapshots, false, Committed(g)) == Ok(previous)
    requires AppendPlan(m, g, RecoveryCommand(tail, previous)).Ok?
    requires AppendPlan(m, g, RecoveryCommand(tail, previous)).value.Commit?
    ensures var (h, r) := AppendRun(m, g, RecoveryCommand(tail, previous), power);
            && r.Ok? && Tidy(h) && LedgerInv(m, h)
            && MaterialOf(r.value) == MaterialOf(previous) && Meaning(m, h) == Ok(MaterialOf(previous))
            && h.quarantine == g.quarantine && |Committed(h)| == |Committed(g)| + 1
            && Traces(Committed(h)[|Committed(g)|], tail)
  {
    hide Fold, CommitRun, CheckpointsHold, LedgerInv, ValidEvent, LoadBatch, MayEnter, FirstWithCommand;
    var cmd := RecoveryCommand(tail, previous);
    var e := AppendPlan(m, g, cmd).value.event;
    ReadableIffTidy(m, g);
    AppendAgreesWithReplay(m, g, cmd);
    CommitKeeps(m, g, e, power);
    var r := Fold(m, g.snapshots, Committed(g)).value;
    assert r.active + ObjectLinks(cmd.links) == r.active;
  }

  /**
   * Crash atomicity. Whatever write a general append dies at, recovery then finds the meaning the ledger had
   * before the call, or the meaning it has with the planned event committed, and nothing in between.
   */
  lemma CrashedAppendRecovers(m: Manifest, f: Files, cmd: Command, crash: Power, power: Power)
    requires LedgerInv(m, f) && !IsRevision(cmd.eventType) && Committed(f) != [] && power.writes >= 5
    requires var g := AppendRun(m, f, cmd, crash).0;
             && g.freeze.None?
             && (!Tidy(g) ==> TailOf(g) !in g.quarantine && RecoverTail(OfTail(TailOf(g))) !in CommandIds(Committed(g)))
    ensures var g := AppendRun(m, f, cmd, crash).0;
            var (h, r) := RecoverRun(m, g, power);
            && r.Ok? && Tidy(h)
            && (Ok(MaterialOf(r.value)) == Meaning(m, f)
                || (AppendPlan(m, f, cmd).Ok? && AppendPlan(m, f, cmd).value.Commit?
                    && Fold(m, f.snapshots, Committed(f) + [AppendPlan(m, f, cmd).value.event]).Ok?
                    && Ok(MaterialOf(r.value)) == Meaning(m, Marked(m, f, AppendPlan(m, f, cmd).value.event))))
  {
    AppendKeeps(m, f, cmd, crash);
    var g := AppendRun(m, f, cmd, crash).0;
    RecoverySucceeds(m, g, power);
    if Committed(g) != Committed(f) {
      var e := AppendPlan(m, f, cmd).value.event;
      ReadableIffTidy(m, f);
      AppendAgreesWithReplay(m, f, cmd);
      MarkedKeeps(m, f, e);
    }
  }

  /** A reservation that commits is the append of its own command; one that does not leaves everything alone. */
  lemma ReserveIsAppend(m: Manifest, f: Files, a: Action, authority: Authority, commandId: CommandId, power: Power)
    returns (cmd: Command)
    ensures var plan := ReservePlan(m, f, a, authority, commandId);
            if plan.Ok? && plan.value.Commit? then
              && !IsRevision(cmd.eventType) && AppendPlan(m, f, cmd) == plan
              && ReserveRun(m, f, a, authority, commandId, power) == AppendRun(m, f, cmd, power)
            else ReserveRun(m, f, a, authority, commandId, power).0 == f
  {
    hide Fold, AppendPlan, CommitRun, ScanReservations, AcceptableHeads, AuthorityBinds;
    var none := Command(ActionReserved, ActionAuthorityReserved, "", "", 0, m.genesis, commandId, map[], Plain(""), 1);
    var current := Project(m, f.snapshots, f.freeze.Some?, f.journal.records);
    cmd := if current.Ok? then ReservationCommand(a, authority, current.value, commandId) else none;
    hide Project;
  }

  /** Crash atomicity of a reservation: authority and idempotency key are consumed together, in one event, or not. */
  lemma CrashedReserveRecovers(m: Manifest, f: Files, a: Action, authority: Authority, commandId: CommandId,
                               crash: Power, power: Power)
    requires LedgerInv(m, f) && Committed(f) != [] && power.writes >= 5
    requires var g := ReserveRun(m, f, a, authority, commandId, crash).0;
             && g.freeze.None?
             && (!Tidy(g) ==> TailOf(g) !in g.quarantine && RecoverTail(OfTail(TailOf(g))) !in CommandIds(Committed(g)))
    ensures var plan := ReservePlan(m, f, a, authority, commandId);
            var g := ReserveRun(m, f, a, authority, commandId, crash).0;
            var (h, r) := RecoverRun(m, g, power);
            && r.Ok? && Tidy(h)
            && (Ok(MaterialOf(r.value)) == Meaning(m, f)
                || (plan.Ok? && plan.value.Commit?
                    && Ok(MaterialOf(r.value)) == Meaning(m, Marked(m, f, plan.value.event))))
  {
    hide LedgerInv, AppendRun, AppendPlan, ReservePlan, ReserveRun, RecoverRun, Fold, Meaning, Committed, TailOf,
         CommandIds;
    var cmd := ReserveIsAppend(m, f, a, authority, commandId, crash);
    var plan := ReservePlan(m, f, a, authority, commandId);
    if plan.Ok? && plan.value.Commit? {
      CrashedAppendRecovers(m, f, cmd, crash, power);
    } else {
      RecoverySucceeds(m, f, power);
    }
  }

  /**
   * Crash atomicity of a revision or reopen. Its snapshot is written first, so a crash can leave a snapshot that no
   * event pins; recovery still finds the meaning before the call or the meaning with the whole revision.
   */
  lemma CrashedRevisionRecovers(m: Manifest, f: Files, plan: RevisionPlan, crash: Power, power: Power)
    requires LedgerInv(m, f) && Tidy(f) && f.freeze.None? && Committed(f) != [] && power.writes >= 5
    requires plan.batch.revision !in f.snapshots && RevisionReplays(m, f, plan) && RevisionWellMade(m, f, plan)
    requires var g := RevisionRun(m, f, Ok(plan), crash).0;
             !Tidy(g) ==> TailOf(g) !in g.quarantine && RecoverTail(OfTail(TailOf(g))) !in CommandIds(Committed(g))
    ensures var g := RevisionRun(m, f, Ok(plan), crash).0;
            var (h, r) := RecoverRun(m, g, power);
            && r.Ok? && Tidy(h)
            && (Ok(MaterialOf(r.value)) == Meaning(m, f)
                || Ok(MaterialOf(r.value)) == Meaning(m, Marked(m, WithSnapshot(f, plan.batch), plan.event)))
  {
    hide LedgerInv, RecoverRun, RevisionRun, Fold, Meaning, Grows, TailOf;
    var g := RevisionRun(m, f, Ok(plan), crash).0;
    RevisionKeeps(m, f, plan, crash);
    RevisionLeavesOpen(m, f, plan, crash);
    RecoverySucceeds(m, g, power);
    if Committed(g) == Committed(f) {
      MeaningSurvivesSnapshots(m, f, g);
    } else {
      SnapshotKeeps(m, f, plan.batch);
      MarkedMeaning(m, WithSnapshot(f, plan.batch), g, plan.event);
    }
  }

  lemma RevisionLeavesOpen(m: Manifest, f: Files, plan: RevisionPlan, crash: Power)
    requires LedgerInv(m, f) && Tidy(f) && f.freeze.None?
    requires plan.batch.revision !in f.snapshots && RevisionReplays(m, f, plan) && RevisionWellMade(m, f, plan)
    ensures var g := RevisionRun(m, f, Ok(plan), crash).0;
            g.freeze.None? && (crash.writes > 0 ==> g.snapshots == WithSnapshot(f, plan.batch).snapshots)
            && (crash.writes == 0 ==> g == f)
  {
    hide Fold, Advance, Start, EnterRevision, LoadBatch, Grows;
    SnapshotKeeps(m, f, plan.batch);
    if crash.writes > 0 {
      CommitKeeps(m, WithSnapshot(f, plan.batch), plan.event, crash.(writes := crash.writes - 1));
    }
  }

  lemma MeaningSurvivesSnapshots(m: Manifest, f: Files, g: Files)
    requires LedgerInv(m, f) && Committed(g) == Committed(f)
    requires forall k :: k in f.snapshots ==> k in g.snapshots && g.snapshots[k] == f.snapshots[k]
    ensures Meaning(m, g) == Meaning(m, f)
  {
    CommittedReplays(m, f);
    FoldFrame(m, f.snapshots, g.snapshots, Committed(f));
  }

  lemma MarkedMeaning(m: Manifest, f: Files, g: Files, e: Event)
    requires LedgerInv(m, f) && Tidy(f) && Acceptable(m, f, e)
    requires Committed(g) == Committed(f) + [e] && g.snapshots == f.snapshots
    ensures Meaning(m, g) == Meaning(m, Marked(m, f, e))
  {
    MarkedKeeps(m, f, e);
  }
}
