/** What every ledger writer keeps, whatever write the process dies at, and what replay says of its events. */
module LedgerInvariant {
  import opened Results
  import opened Workflow
  import opened Records
  import opened Journals
  import opened Ledger
  import opened Writers

  // ---- markers 1..n ----

  lemma {:induction false} SubsetSize<T>(a: set<T>, b: set<T>)
    requires a <= b
    ensures |a| <= |b|
  {
    if x :| x in a {
      SubsetSize(a - {x}, b - {x});
    }
  }

  lemma SameSizeSubset<T>(a: set<T>, b: set<T>)
    requires a <= b && |a| == |b|
    ensures a == b
  {
    forall x | x in b ensures x in a {
      if x !in a {
        SubsetSize(a, b - {x});
      }
    }
  }

  /** A marker set that binds an event list holds the numbers 1..n and nothing else. */
  lemma MarkerKeys(m: Manifest, commits: map<int, CommitMarker>, events: seq<Event>)
    requires MarkersBind(m, commits, events)
    ensures commits.Keys == UpTo(|events|)
    ensures forall i :: i in commits <==> 1 <= i <= |events|
  {
    forall i | i in UpTo(|events|) ensures i in commits.Keys {
      assert events[i - 1] == events[i - 1];
    }
    SameSizeSubset(UpTo(|events|), commits.Keys);
  }

  lemma OneMoreKey<K, V>(a: map<K, V>, k: K, v: V)
    requires k !in a
    ensures |a[k := v]| == |a| + 1
  {
  }

  lemma MarkNext(m: Manifest, commits: map<int, CommitMarker>, events: seq<Event>, e: Event)
    requires MarkersBind(m, commits, events) && e.body.sequence == |events| + 1
    ensures |events| + 1 !in commits
    ensures MarkersBind(m, commits[|events| + 1 := MarkerOf(m, e, |events| + 1)], events + [e])
  {
    hide MarkerOf;
    var more, longer := commits[|events| + 1 := MarkerOf(m, e, |events| + 1)], events + [e];
    MarkerKeys(m, commits, events);
    OneMoreKey(commits, |events| + 1, MarkerOf(m, e, |events| + 1));
    forall i | 0 <= i < |longer| ensures MarkerBinds(m, more, longer[i], i + 1) {
      if i < |events| {
        MarkStays(m, commits, events, more, i);
      }
    }
  }

  lemma MarkStays(m: Manifest, commits: map<int, CommitMarker>, events: seq<Event>, more: map<int, CommitMarker>,
                  i: nat)
    requires MarkersBind(m, commits, events) && i < |events|
    requires i + 1 in more && (i + 1 in commits ==> more[i + 1] == commits[i + 1])
    ensures MarkerBinds(m, more, events[i], i + 1)
  {
  }

  // ---- replay facts ----

  /** Replay reads a snapshot map only where its events point, so new snapshots never change it. */
  lemma {:induction false} FoldFrame(m: Manifest, snaps: Snapshots, more: Snapshots, events: seq<Event>)
    requires Fold(m, snaps, events).Ok?
    requires forall k :: k in snaps ==> k in more && more[k] == snaps[k]
    ensures Fold(m, more, events) == Fold(m, snaps, events)
  {
    if events != [] {
      FoldFrame(m, snaps, more, events[..|events| - 1]);
    }
  }

  lemma {:induction false} FoldPrefix(m: Manifest, snaps: Snapshots, events: seq<Event>, k: nat)
    requires Fold(m, snaps, events).Ok? && k <= |events|
    ensures Fold(m, snaps, events[..k]).Ok?
  {
    if k < |events| {
      assert events[..|events| - 1][..k] == events[..k];
      FoldPrefix(m, snaps, events[..|events| - 1], k);
    } else {
      assert events[..k] == events;
    }
  }

  function CommandIds(events: seq<Event>): set<CommandId> {
    set i | 0 <= i < |events| :: events[i].body.commandId
  }

  lemma LastCommandId(events: seq<Event>)
    requires events != []
    ensures CommandIds(events) == CommandIds(events[..|events| - 1]) + {events[|events| - 1].body.commandId}
  {
    var prefix, e := events[..|events| - 1], events[|events| - 1];
    forall c | c in CommandIds(events) ensures c in CommandIds(prefix) + {e.body.commandId} {
      var i :| 0 <= i < |events| && events[i].body.commandId == c;
      if i < |prefix| {
        assert prefix[i].body.commandId == c;
      }
    }
    forall c | c in CommandIds(prefix) ensures c in CommandIds(events) {
      var i :| 0 <= i < |prefix| && prefix[i].body.commandId == c;
      assert events[i].body.commandId == c;
    }
  }

  /** What one accepted event does to the bookkeeping of replay. */
  lemma AdvanceFacts(m: Manifest, snaps: Snapshots, r: Replay, position: int, e: Event)
    requires Advance(m, snaps, r, position, e).Ok? && LoadBatch(m, snaps, r.revision).Ok?
    ensures var next := Advance(m, snaps, r, position, e).value;
            && e.body.sequence == position
            && next.commandIds == r.commandIds + {e.body.commandId} && next.head == e.digest && next.state.Some?
            && next.revision >= r.revision && LoadBatch(m, snaps, next.revision).Ok?
  {
    hide ApplyEvent, SortedValues, LoadBatch, ClaimedInvalidations, ObjectLinks;
  }

  /** Accepted events are numbered from one. */
  lemma {:induction false} FoldNumbers(m: Manifest, snaps: Snapshots, events: seq<Event>)
    requires Fold(m, snaps, events).Ok?
    ensures forall i :: 0 <= i < |events| ==> events[i].body.sequence == i + 1
  {
    if events != [] {
      var prefix := events[..|events| - 1];
      FoldNumbers(m, snaps, prefix);
      assert events[|events| - 1].body.sequence == |events|;
      hide Fold, Advance;
      forall i | 0 <= i < |events| ensures events[i].body.sequence == i + 1 {
        if i < |prefix| {
          assert prefix[i] == events[i];
        }
      }
    }
  }

  lemma {:induction false} FoldCarries(m: Manifest, snaps: Snapshots, events: seq<Event>)
    requires Fold(m, snaps, events).Ok?
    ensures var r := Fold(m, snaps, events).value;
            && r.commandIds == CommandIds(events)
            && r.revision >= m.initialRevision
            && (r.state.None? <==> events == [])
            && (events == [] ==> r.head == m.genesis)
            && (events != [] ==> r.head == events[|events| - 1].digest)
            && LoadBatch(m, snaps, r.revision).Ok?
  {
    if events != [] {
      hide Advance, CommandIds, LoadBatch, Start;
      var prefix := events[..|events| - 1];
      FoldCarries(m, snaps, prefix);
      AdvanceFacts(m, snaps, Fold(m, snaps, prefix).value, |events|, events[|events| - 1]);
      LastCommandId(events);
    }
  }

  lemma FoldFacts(m: Manifest, snaps: Snapshots, events: seq<Event>)
    requires Fold(m, snaps, events).Ok?
    ensures var r := Fold(m, snaps, events).value;
            && r.commandIds == CommandIds(events)
            && r.revision >= m.initialRevision
            && (r.state.None? <==> events == [])
            && (events == [] ==> r.head == m.genesis)
            && (events != [] ==> r.head == events[|events| - 1].digest)
            && LoadBatch(m, snaps, r.revision).Ok?
    ensures forall i :: 0 <= i < |events| ==> events[i].body.sequence == i + 1
  {
    hide Fold, CommandIds, LoadBatch;
    FoldCarries(m, snaps, events);
    FoldNumbers(m, snaps, events);
  }

  lemma {:induction false} SearchFindsCommand(events: seq<Event>, id: CommandId)
    ensures FirstWithCommand(events, id).None? <==> id !in CommandIds(events)
    ensures FirstWithCommand(events, id).Some?
            ==> exists i :: 0 <= i < |events| && events[i] == FirstWithCommand(events, id).value
                            && events[i].body.commandId == id
  {
    if events != [] {
      SearchFindsCommand(events[1..], id);
      if events[0].body.commandId == id {
        assert events[0].body.commandId in CommandIds(events);
      } else {
        var rest := events[1..];
        if i :| 0 <= i < |rest| && rest[i].body.commandId == id {
          assert events[i + 1].body.commandId == id;
        }
        if i :| 0 <= i < |events| && events[i].body.commandId == id {
          assert rest[i - 1].body.commandId == id;
        }
      }
    }
  }

  lemma FoldSnoc(m: Manifest, snaps: Snapshots, events: seq<Event>, e: Event)
    requires Fold(m, snaps, events).Ok?
    ensures Fold(m, snaps, events + [e]) == Advance(m, snaps, Fold(m, snaps, events).value, |events| + 1, e)
  {
    assert (events + [e])[..|events|] == events;
  }

  // ---- writers against the replayer ----

  /** What an accepted ordinary event does to the replayed state. */
  function AfterAppend(r: Replay, cmd: Command, e: Event): Replay {
    r.(state := Some(cmd.target), active := r.active + ObjectLinks(cmd.links), head := e.digest,
       commandIds := r.commandIds + {cmd.commandId})
  }

  /**
   * Writer/replayer agreement for the general writer. It commits before it projects, and what it committed is
   * readable again exactly when the caller did not pass one of the two revision event types.
   */
  lemma AppendAgreesWithReplay(m: Manifest, f: Files, cmd: Command)
    requires AppendPlan(m, f, cmd).Ok? && AppendPlan(m, f, cmd).value.Commit?
    ensures var e := AppendPlan(m, f, cmd).value.event;
            var r := Fold(m, f.snapshots, f.journal.records);
            var next := Fold(m, f.snapshots, f.journal.records + [e]);
            && r.Ok?
            && (next.Ok? <==> !IsRevision(cmd.eventType))
            && (next.Ok? ==> next.value == AfterAppend(r.value, cmd, e))
            && ValidEvent(m, e) && e.body.sequence == |f.journal.records| + 1
            && e.body.commandDigest == OfCommand(cmd) && e.body.previous == cmd.expectedHead
            && e.body.eventType == cmd.eventType && e.body.links == cmd.links && e.body.decision == cmd.decision
            && e.body.toState == cmd.target
  {
    hide Fold, Advance, ApplyEvent, MayEnter;
    var events := f.journal.records;
    var e := AppendPlan(m, f, cmd).value.event;
    FoldFacts(m, f.snapshots, events);
    SearchFindsCommand(events, cmd.commandId);
    FoldSnoc(m, f.snapshots, events, e);
    AppendEventReplays(m, f.snapshots, Fold(m, f.snapshots, events).value, cmd, |events| + 1, e.body.occurredAt);
  }

  /** One ordinary event, seen by the replayer. */
  lemma AppendEventReplays(m: Manifest, snaps: Snapshots, r: Replay, cmd: Command, sequence: int, occurredAt: string)
    requires MayEnter(r.state, cmd) && cmd.commandId !in r.commandIds
    ensures var e := EventFor(m, r, cmd, sequence, occurredAt);
            var next := Advance(m, snaps, r, sequence, e);
            && (next.Ok? <==> !IsRevision(cmd.eventType))
            && (next.Ok? ==> next.value == AfterAppend(r, cmd, e))
  {
    if !IsRevision(cmd.eventType) {
      MayEnterApplies(r.state, cmd);
    }
    hide ApplyEvent, MayEnter, LoadBatch;
  }

  lemma MayEnterApplies(state: Option<WorkflowState>, cmd: Command)
    requires MayEnter(state, cmd) && !IsRevision(cmd.eventType)
    ensures ApplyEvent(state, cmd.eventType, cmd.target, cmd.actionCount) == Ok(cmd.target)
  {
  }

  /** A revision re-pins the run, retires every active object in sorted order, and blocks on evidence. */
  function AfterRevision(r: Replay, plan: RevisionPlan): Replay {
    Replay(plan.batch.revision, plan.batch.cut, plan.batch.pin, OfBatch(plan.batch), plan.event.digest,
           Some(EvidenceBlocked), map[],
           r.invalidated + (if r.active == map[] then [] else SortedValues(r.active)),
           r.commandIds + {plan.event.body.commandId})
  }

  /** One revision event, seen by the replayer. */
  lemma RevisionEventReplays(m: Manifest, snaps: Snapshots, r: Replay, n: nat, batch: Batch, cmd: Command)
    requires r.state.Some? && r.revision >= m.initialRevision
    requires BatchFollows(AsProjection(m, r, n, false), batch)
    requires batch.revision in snaps && snaps[batch.revision] == batch
    requires ClaimedInvalidations(cmd.decision) == Some(SortedValues(r.active))
    ensures var e := RevisionEvent(m, AsProjection(m, r, n, false), batch, cmd);
            var next := Advance(m, snaps, r, n + 1, e);
            && (next.Ok? <==> && cmd.commandId !in r.commandIds && IsRevision(cmd.eventType)
                              && ApplyEvent(r.state, cmd.eventType, cmd.target, 0).Ok?)
            && (next.Ok? ==> next.value == AfterRevision(r, RevisionPlan(batch, e)))
            && ValidEvent(m, e)
  {
    hide SortedValues;
  }

  lemma RevisableEntersBlocked(s: WorkflowState, t: EventType)
    requires CanBeRevised(s)
    ensures RevisionTarget(s) == Ok(EvidenceBlocked)
    ensures IsRevision(t) && ApplyEvent(Some(s), t, EvidenceBlocked, 0).Ok? <==> t == SourceRevisionChanged
  {
  }

  /** A source revision is readable again exactly when it used its own event type and a fresh command ID. */
  lemma ReviseAgreesWithReplay(m: Manifest, f: Files, batch: Batch, eventType: EventType, actorKind: string,
                               actorId: string, expectedRevision: int, expectedHead: Digest, commandId: CommandId)
    requires RevisePlan(m, f, batch, eventType, actorKind, actorId, expectedRevision, expectedHead, commandId).Ok?
    ensures var plan := RevisePlan(m, f, batch, eventType, actorKind, actorId, expectedRevision, expectedHead,
                                   commandId).value;
            && (RevisionReplays(m, f, plan)
                <==> eventType == SourceRevisionChanged && commandId !in CommandIds(f.journal.records))
            && RevisionWellMade(m, f, plan) && plan.batch == batch
  {
    hide Fold, Advance, SortedValues;
    var r := Fold(m, f.snapshots, f.journal.records).value;
    FoldFacts(m, f.snapshots, f.journal.records);
    var cmd := Command(EvidenceBlocked, eventType, actorKind, actorId, expectedRevision, expectedHead, commandId, map[],
                       Invalidation(SortedValues(r.active)), 0);
    RevisableEntersBlocked(r.state.value, eventType);
    RevisionReplayed(m, f, batch, cmd);
  }

  /** A reopen is readable again exactly when its command ID is fresh, which the code does not check. */
  lemma ReopenAgreesWithReplay(m: Manifest, f: Files, batch: Batch, expectedRevision: int, expectedHead: Digest,
                               commandId: CommandId)
    requires ReopenPlan(m, f, batch, expectedRevision, expectedHead, commandId).Ok?
    ensures var plan := ReopenPlan(m, f, batch, expectedRevision, expectedHead, commandId).value;
            && (RevisionReplays(m, f, plan) <==> commandId !in CommandIds(f.journal.records))
            && RevisionWellMade(m, f, plan) && plan.batch == batch
  {
    hide Fold, Advance, SortedValues;
    var r := Fold(m, f.snapshots, f.journal.records).value;
    FoldFacts(m, f.snapshots, f.journal.records);
    var closure := if ClosureId in r.active then Some(r.active[ClosureId]) else None;
    var cmd := Command(EvidenceBlocked, CaseReopened, "deterministic_control", "S2-ACTOR-REOPEN-CONTROL",
                       expectedRevision, expectedHead, commandId, map[],
                       Reopening(SortedValues(r.active), closure, r.revision), 0);
    RevisionReplayed(m, f, batch, cmd);
  }

  ghost predicate RevisionReplays(m: Manifest, f: Files, plan: RevisionPlan) {
    Fold(m, WithSnapshot(f, plan.batch).snapshots, f.journal.records + [plan.event]).Ok?
  }

  /** A planned revision event carries valid content, and if it replays it does so to `AfterRevision`. */
  ghost predicate RevisionWellMade(m: Manifest, f: Files, plan: RevisionPlan) {
    var before := Fold(m, f.snapshots, f.journal.records);
    && before.Ok? && ValidEvent(m, plan.event) && plan.event.body.sequence == |f.journal.records| + 1
    && (RevisionReplays(m, f, plan)
        ==> Fold(m, WithSnapshot(f, plan.batch).snapshots, f.journal.records + [plan.event])
            == Ok(AfterRevision(before.value, plan)))
  }

  lemma RevisionReplayed(m: Manifest, f: Files, batch: Batch, cmd: Command)
    requires Fold(m, f.snapshots, f.journal.records).Ok? && f.journal.records != []
    requires Fold(m, f.snapshots, f.journal.records).value.state.Some?
    requires var r := Fold(m, f.snapshots, f.journal.records).value;
             && BatchFollows(AsProjection(m, r, |f.journal.records|, false), batch)
             && ClaimedInvalidations(cmd.decision) == Some(SortedValues(r.active))
    requires batch.revision !in f.snapshots
    ensures var r := Fold(m, f.snapshots, f.journal.records).value;
            var plan := RevisionPlan(batch, RevisionEvent(m, AsProjection(m, r, |f.journal.records|, false), batch,
                                                          cmd));
            && (RevisionReplays(m, f, plan)
                <==> && cmd.commandId !in CommandIds(f.journal.records) && IsRevision(cmd.eventType)
                     && ApplyEvent(r.state, cmd.eventType, cmd.target, 0).Ok?)
            && RevisionWellMade(m, f, plan)
  {
    var events := f.journal.records;
    var r := Fold(m, f.snapshots, events).value;
    var snaps := WithSnapshot(f, batch).snapshots;
    var e := RevisionEvent(m, AsProjection(m, r, |events|, false), batch, cmd);
    FoldFacts(m, f.snapshots, events);
    FoldFrame(m, f.snapshots, snaps, events);
    FoldSnoc(m, snaps, events, e);
    RevisionEventReplays(m, snaps, r, |events|, batch, cmd);
  }

  // ---- the invariant ----

  /** The events with a marker: all of them, or all but an unmarked last one. */
  function Committed(f: Files): seq<Event> {
    var records := f.journal.records;
    if records != [] && |records| !in f.commits then records[..|records| - 1] else records
  }

  ghost predicate CheckpointsHold(m: Manifest, f: Files) {
    forall k :: k in f.checkpoints
      ==> 1 <= k <= |Committed(f)| && Project(m, f.snapshots, false, Committed(f)[..k]) == Ok(f.checkpoints[k])
  }

  /**
   * Every record on disk is valid and replays, markers bind exactly the committed ones, a torn piece or an
   * unmarked record is the only thing past them, and every checkpoint is the projection of its prefix.
   */
  ghost predicate LedgerInv(m: Manifest, f: Files) {
    && m.initialRevision >= 1
    && AllValid(m, f.journal.records)
    && Fold(m, f.snapshots, f.journal.records).Ok?
    && MarkersBind(m, f.commits, Committed(f))
    && (f.journal.torn.Some? ==> Committed(f) == f.journal.records)
    && CheckpointsHold(m, f)
  }

  /** Nothing lies past the committed records. */
  predicate Tidy(f: Files) {
    f.journal.torn.None? && Committed(f) == f.journal.records
  }

  /** What no writer ever takes back. */
  ghost predicate Extends(f: Files, g: Files) {
    && Committed(f) <= Committed(g)
    && (forall k :: k in f.checkpoints ==> k in g.checkpoints && g.checkpoints[k] == f.checkpoints[k])
    && (forall k :: k in f.snapshots ==> k in g.snapshots && g.snapshots[k] == f.snapshots[k])
    && f.quarantine <= g.quarantine
    && (f.freeze.Some? ==> g.freeze == f.freeze)
  }

  /** One call: nothing is taken back and at most one event is added. */
  ghost predicate Grows(f: Files, g: Files) {
    Extends(f, g) && |Committed(g)| <= |Committed(f)| + 1
  }

  lemma GrowsVia(f: Files, t: Files, g: Files)
    requires Grows(f, t) && Grows(t, g) && Committed(t) == Committed(f)
    ensures Grows(f, g)
  {
    hide Committed;
  }

  /** A reader accepts a ledger in a run nobody tampered with exactly when it is tidy. */
  lemma ReadableIffTidy(m: Manifest, f: Files)
    requires LedgerInv(m, f)
    ensures ReadEvents(m, f).Ok? <==> Tidy(f)
    ensures Tidy(f) ==> ReadEvents(m, f) == Ok(Committed(f))
  {
    MarkerKeys(m, f.commits, Committed(f));
    if ReadEvents(m, f).Ok? {
      MarkerKeys(m, f.commits, f.journal.records);
    }
  }

  /** Checkpoints survive any growth of the committed ledger and of the snapshot store. */
  lemma CheckpointsSurvive(m: Manifest, f: Files, g: Files)
    requires CheckpointsHold(m, f) && Fold(m, f.snapshots, Committed(f)).Ok?
    requires Committed(f) <= Committed(g) && g.checkpoints == f.checkpoints
    requires forall k :: k in f.snapshots ==> k in g.snapshots && g.snapshots[k] == f.snapshots[k]
    ensures CheckpointsHold(m, g)
  {
    forall k | k in g.checkpoints
      ensures 1 <= k <= |Committed(g)| && Project(m, g.snapshots, false, Committed(g)[..k]) == Ok(g.checkpoints[k])
    {
      assert Committed(g)[..k] == Committed(f)[..k];
      FoldPrefix(m, f.snapshots, Committed(f), k);
      FoldFrame(m, f.snapshots, g.snapshots, Committed(f)[..k]);
    }
  }

  lemma CommittedReplays(m: Manifest, f: Files)
    requires LedgerInv(m, f)
    ensures Fold(m, f.snapshots, Committed(f)).Ok? && AllValid(m, Committed(f))
    ensures Committed(f) <= f.journal.records
  {
    FoldPrefix(m, f.snapshots, f.journal.records, |Committed(f)|);
  }

  // ---- one durable commit, cut anywhere ----

  /** An event the replayer will accept next, on a tidy ledger. */
  ghost predicate Acceptable(m: Manifest, f: Files, e: Event) {
    && ValidEvent(m, e) && e.body.sequence == |f.journal.records| + 1
    && Fold(m, f.snapshots, f.journal.records + [e]).Ok?
  }

  lemma CutInLine(m: Manifest, f: Files, tear: Option<string>)
    requires LedgerInv(m, f) && Tidy(f)
    ensures LedgerInv(m, Torn(f, tear)) && Committed(Torn(f, tear)) == Committed(f)
  {
    hide Fold, ValidEvent, MarkersBind, CheckpointsHold;
    CommittedReplays(m, f);
    CheckpointsSurvive(m, f, Torn(f, tear));
  }

  lemma CutBeforeMarker(m: Manifest, f: Files, e: Event)
    requires LedgerInv(m, f) && Tidy(f) && Acceptable(m, f, e)
    ensures LedgerInv(m, Appended(f, e)) && Committed(Appended(f, e)) == Committed(f)
  {
    var g := Appended(f, e);
    UnmarkedLast(m, f, e);
    hide Fold, ValidEvent, MarkersBind, CheckpointsHold, Committed;
    CommittedReplays(m, f);
    CheckpointsSurvive(m, f, g);
  }

  lemma UnmarkedLast(m: Manifest, f: Files, e: Event)
    requires LedgerInv(m, f) && Tidy(f)
    ensures Committed(Appended(f, e)) == Committed(f) && Committed(f) == f.journal.records
  {
    hide Fold, ValidEvent, CheckpointsHold, MarkersBind;
    MarkerKeys(m, f.commits, f.journal.records);
    assert (f.journal.records + [e])[..|f.journal.records|] == f.journal.records;
  }

  lemma MarkedKeeps(m: Manifest, f: Files, e: Event)
    requires LedgerInv(m, f) && Tidy(f) && Acceptable(m, f, e)
    ensures e.body.sequence !in f.commits && e.body.sequence !in f.checkpoints
    ensures LedgerInv(m, Marked(m, f, e)) && Tidy(Marked(m, f, e))
    ensures Committed(Marked(m, f, e)) == Committed(f) + [e]
  {
    var g := Marked(m, f, e);
    MarkNext(m, f.commits, f.journal.records, e);
    CommittedReplays(m, f);
    CheckpointsSurvive(m, f, g);
  }

  lemma CheckpointKeeps(m: Manifest, g: Files)
    requires LedgerInv(m, g) && Tidy(g) && g.journal.records != []
    requires Project(m, g.snapshots, false, g.journal.records).Ok?
    ensures var p := Project(m, g.snapshots, false, g.journal.records).value;
            var h := Checkpointed(g, p);
            p.sequence == |g.journal.records| && LedgerInv(m, h) && Tidy(h) && Committed(h) == Committed(g)
  {
    var p := Project(m, g.snapshots, false, g.journal.records).value;
    var h := Checkpointed(g, p);
    assert Committed(h)[..|g.journal.records|] == g.journal.records;
    assert forall k :: k in g.checkpoints ==> Committed(h)[..k] == Committed(g)[..k];
  }

  /** What one durable commit may leave, by the number of writes it had. */
  ghost predicate CommitOutcome(m: Manifest, f: Files, e: Event, writes: nat, g: Files, r: Result<Projection>) {
    && LedgerInv(m, g) && Grows(f, g)
    && Committed(g) == (if writes >= 2 then Committed(f) + [e] else Committed(f))
    && (r.Ok? <==> writes >= 3)
    && (r.Err? ==> r == Err(Crash))
    && (writes >= 2 ==> Tidy(g))
    && (r.Ok? ==> r == Project(m, g.snapshots, false, Committed(g)))
    && g.snapshots == f.snapshots && g.quarantine == f.quarantine && g.freeze == f.freeze
  }

  /**
   * One durable commit under every crash: the invariant holds, the committed ledger gained the event or nothing,
   * it gained it exactly when the marker was written, and only then can the call have returned.
   */
  lemma CommitKeeps(m: Manifest, f: Files, e: Event, power: Power)
    requires LedgerInv(m, f) && Tidy(f) && Acceptable(m, f, e) && f.freeze.None?
    ensures var (g, r) := CommitRun(m, f, e, power); CommitOutcome(m, f, e, power.writes, g, r)
  {
    hide Fold, CheckpointsHold, ValidEvent;
    if power.writes < 2 {
      CutInLine(m, f, power.tear);
      CutBeforeMarker(m, f, e);
    } else {
      MarkedKeeps(m, f, e);
      ProjectsWhenMarked(m, f, e);
      CommitRunValue(m, f, e, power);
      CheckpointKeeps(m, Marked(m, f, e));
      MarkedOutcome(m, f, e, power.writes);
    }
  }

  lemma MarkedOutcome(m: Manifest, f: Files, e: Event, writes: nat)
    requires writes >= 2 && Tidy(f) && f.freeze.None?
    requires e.body.sequence !in f.checkpoints
    requires var g := Marked(m, f, e);
             var p := Project(m, g.snapshots, g.freeze.Some?, g.journal.records);
             && p.Ok? && p.value.sequence == e.body.sequence
             && LedgerInv(m, g) && Tidy(g) && Committed(g) == Committed(f) + [e]
             && LedgerInv(m, Checkpointed(g, p.value)) && Tidy(Checkpointed(g, p.value))
    ensures var g := Marked(m, f, e);
            var p := Project(m, g.snapshots, g.freeze.Some?, g.journal.records);
            if writes == 2 then CommitOutcome(m, f, e, writes, g, Err(Crash))
            else CommitOutcome(m, f, e, writes, Checkpointed(g, p.value), p)
  {
  }

  function Checkpointed(g: Files, p: Projection): Files {
    g.(checkpoints := g.checkpoints[p.sequence := p])
  }

  lemma ProjectsWhenMarked(m: Manifest, f: Files, e: Event)
    requires Fold(m, f.snapshots, f.journal.records + [e]).Ok? && e.body.sequence == |f.journal.records| + 1
    requires f.freeze.None?
    ensures var g := Marked(m, f, e);
            var p := Project(m, g.snapshots, g.freeze.Some?, g.journal.records);
            p.Ok? && p.value.sequence == e.body.sequence && !p.value.frozen
  {
    FoldFacts(m, f.snapshots, f.journal.records + [e]);
  }

  lemma CommitRunValue(m: Manifest, f: Files, e: Event, power: Power)
    requires power.writes >= 2 && e.body.sequence !in f.commits && e.body.sequence !in f.checkpoints
    requires var g := Marked(m, f, e);
             var p := Project(m, g.snapshots, g.freeze.Some?, g.journal.records);
             p.Ok? && p.value.sequence == e.body.sequence
    ensures var g := Marked(m, f, e);
            var p := Project(m, g.snapshots, g.freeze.Some?, g.journal.records);
            CommitRun(m, f, e, power)
            == (if power.writes == 2 then (g, Err(Crash)) else (Checkpointed(g, p.value), p))
  {
  }
}
