/**
 * The event ledger on disk and its replay: which records, markers, snapshots and checkpoints a run directory
 * holds, and the one fold (`_project`) that decides what an event list means.
 */
module Ledger {
  import opened Results
  import opened Workflow
  import opened Records
  import opened Journals

  datatype Manifest = Manifest(
    runId: string,
    caseId: string,
    genesis: Digest,
    initialRevision: int,
    snapshot: Digest)

  datatype CommitMarker = CommitMarker(runId: string, sequence: int, revision: int, digest: Digest)

  datatype Projection = Projection(
    runId: string,
    caseId: string,
    revision: int,
    cut: string,
    pin: string,
    snapshot: Digest,
    state: WorkflowState,
    sequence: int,
    head: Digest,
    active: Links,
    invalidated: seq<string>,
    frozen: bool)

  datatype FreezeRecord = FreezeRecord(revision: int, head: Digest)

  type Snapshots = map<int, Batch>

  /** Snapshots are keyed by the number in their file name, commit markers and checkpoints by sequence. */
  datatype Files = Files(
    journal: Journal<Event>,
    commits: map<int, CommitMarker>,
    checkpoints: map<int, Projection>,
    snapshots: Snapshots,
    quarantine: set<LedgerTail>,
    freeze: Option<FreezeRecord>)

  // ---- source snapshots ----

  /** The first snapshot is stored under number 1, later ones under their revision. */
  function SnapshotKey(m: Manifest, revision: int): int {
    if revision == m.initialRevision then 1 else revision
  }

  function LoadBatch(m: Manifest, snaps: Snapshots, revision: int): Result<Batch> {
    var key := SnapshotKey(m, revision);
    if key !in snaps then
      Err(Integrity)
    else
      var batch := snaps[key];
      if revision == m.initialRevision && OfBatch(batch) != m.snapshot then Err(Integrity)
      else if batch.caseId != m.caseId || batch.revision != revision then Err(Integrity)
      else Ok(batch)
  }

  // ---- object links ----

  const OBJECT_KEYS: seq<LinkKey> :=
    [RecommendationId, ApprovalId, ActionId, VerificationId, CommunicationId, ClosureId]

  predicate IsObjectKey(k: LinkKey) {
    !k.ReceiptId? && !k.OtherKey?
  }

  function ObjectLinks(links: Links): Links {
    map k | k in links && IsObjectKey(k) :: links[k]
  }

  predicate LinkAllowed(m: Manifest, value: string) {
    "S2-" <= value && ("S2-CASE-" <= value ==> value == m.caseId)
  }

  predicate LinksAllowed(m: Manifest, links: Links) {
    forall k :: k in links ==> LinkAllowed(m, links[k])
  }

  // ---- the sorted inventory of active objects ----

  /** Code-point order of strings. */
  predicate StringLe(a: string, b: string) {
    a == [] || (b != [] && (a[0] < b[0] || (a[0] == b[0] && StringLe(a[1..], b[1..]))))
  }

  function Insert(x: string, xs: seq<string>): seq<string> {
    if xs == [] || StringLe(x, xs[0]) then [x] + xs else [xs[0]] + Insert(x, xs[1..])
  }

  function Sort(xs: seq<string>): seq<string> {
    if xs == [] then [] else Insert(xs[0], Sort(xs[1..]))
  }

  function ValuesAt(links: Links, keys: seq<LinkKey>): seq<string> {
    if keys == [] then []
    else (if keys[0] in links then [links[keys[0]]] else []) + ValuesAt(links, keys[1..])
  }

  function SortedValues(active: Links): seq<string> {
    Sort(ValuesAt(active, OBJECT_KEYS))
  }

  // ---- replay ----

  datatype Replay = Replay(
    revision: int,
    cut: string,
    pin: string,
    snapshot: Digest,
    head: Digest,
    state: Option<WorkflowState>,
    active: Links,
    invalidated: seq<string>,
    commandIds: set<CommandId>)

  predicate ValidEvent(m: Manifest, e: Event) {
    && e.digest == OfEvent(e.body)
    && e.body.runId == m.runId && e.body.caseId == m.caseId
    && e.body.sequence >= 1
    && LinksAllowed(m, e.body.links)
  }

  function Start(m: Manifest, snaps: Snapshots): Result<Replay> {
    var batch :- LoadBatch(m, snaps, m.initialRevision);
    Ok(Replay(batch.revision, batch.cut, batch.pin, m.snapshot, m.genesis, None, map[], [], {}))
  }

  function ClaimedInvalidations(d: Decision): Option<seq<string>> {
    match d
    case Invalidation(ids) => Some(ids)
    case Reopening(ids, _, _) => Some(ids)
    case _ => None
  }

  /** The part of one replay step that only a revision event takes: new pins, and every active object retired. */
  function EnterRevision(m: Manifest, snaps: Snapshots, r: Replay, b: EventBody): Result<Replay> {
    if b.revision != r.revision + 1 then
      Err(Integrity)
    else
      var batch :- LoadBatch(m, snaps, b.revision);
      if OfBatch(batch) != b.snapshot || batch.ledgerHead != r.head then
        Err(Integrity)
      else if r.active != map[] && ClaimedInvalidations(b.decision) != Some(SortedValues(r.active)) then
        Err(Integrity)
      else
        Ok(r.(revision := b.revision, cut := batch.cut, pin := batch.pin, snapshot := b.snapshot,
              invalidated := r.invalidated + (if r.active == map[] then [] else SortedValues(r.active)),
              active := map[]))
  }

  /** One iteration of the replay loop. */
  function Advance(m: Manifest, snaps: Snapshots, r: Replay, position: int, e: Event): Result<Replay> {
    var b := e.body;
    if b.sequence != position || b.previous != r.head || b.commandId in r.commandIds
       || b.previousRevision != r.revision || b.fromState != r.state then
      Err(Integrity)
    else
      var pinned :- if IsRevision(b.eventType) then EnterRevision(m, snaps, r, b)
                    else if b.revision != r.revision then Err(Integrity)
                    else Ok(r);
      if b.cut != pinned.cut || b.pin != pinned.pin || b.snapshot != pinned.snapshot then
        Err(Integrity)
      else if ApplyEvent(r.state, b.eventType, b.toState, b.actionCount).Err? then
        Err(Integrity)
      else
        Ok(pinned.(state := Some(b.toState), active := pinned.active + ObjectLinks(b.links), head := e.digest,
                   commandIds := r.commandIds + {b.commandId}))
  }

  function Fold(m: Manifest, snaps: Snapshots, events: seq<Event>): Result<Replay> {
    if events == [] then
      Start(m, snaps)
    else
      var before :- Fold(m, snaps, events[..|events| - 1]);
      Advance(m, snaps, before, |events|, events[|events| - 1])
  }

  function AsProjection(m: Manifest, r: Replay, sequence: int, frozen: bool): Projection
    requires r.state.Some?
  {
    Projection(m.runId, m.caseId, r.revision, r.cut, r.pin, r.snapshot, r.state.value, sequence, r.head,
               r.active, r.invalidated, frozen)
  }

  function Project(m: Manifest, snaps: Snapshots, frozen: bool, events: seq<Event>): Result<Projection> {
    var r :- Fold(m, snaps, events);
    if r.state.None? then Err(Integrity) else Ok(AsProjection(m, r, |events|, frozen))
  }

  // ---- commit markers ----

  function MarkerOf(m: Manifest, e: Event, position: int): CommitMarker {
    CommitMarker(m.runId, position, e.body.revision, e.digest)
  }

  predicate MarkerBinds(m: Manifest, commits: map<int, CommitMarker>, e: Event, position: int) {
    position in commits && commits[position] == MarkerOf(m, e, position)
  }

  /** Exactly the markers 1..n, each binding its event. */
  predicate MarkersBind(m: Manifest, commits: map<int, CommitMarker>, events: seq<Event>) {
    && |commits| == |events|
    && forall i :: 0 <= i < |events| ==> MarkerBinds(m, commits, events[i], i + 1)
  }

  predicate AllValid(m: Manifest, events: seq<Event>) {
    forall i :: 0 <= i < |events| ==> ValidEvent(m, events[i])
  }

  /** `read_events`: every record, or a refusal of torn, invalid, unmarked and truncated ledgers. */
  function ReadEvents(m: Manifest, f: Files): Result<seq<Event>> {
    if f.journal.torn.Some? || !AllValid(m, f.journal.records)
       || !MarkersBind(m, f.commits, f.journal.records) then
      Err(Integrity)
    else
      Ok(f.journal.records)
  }

  /** `replay`: the reader's projection of the whole ledger. */
  function Current(m: Manifest, f: Files): Result<Projection> {
    var events :- ReadEvents(m, f);
    Project(m, f.snapshots, f.freeze.Some?, events)
  }
}
