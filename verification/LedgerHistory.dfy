/** What an accepted event list proves about its own past: one chain, one use of each command and authority. */
module LedgerHistory {
  import opened Results
  import opened Workflow
  import opened Records
  import opened Journals
  import opened Ledger
  import opened Writers
  import opened LedgerInvariant

  // ---- the hash chain ----

  /** The head every event extends. */
  lemma LastExtendsHead(m: Manifest, snaps: Snapshots, events: seq<Event>)
    requires events != [] && Fold(m, snaps, events).Ok?
    ensures var prefix := events[..|events| - 1];
            Fold(m, snaps, prefix).Ok? && events[|events| - 1].body.previous == Fold(m, snaps, prefix).value.head
  {
  }

  /** A head strictly contains the genesis it grew from, so no event digest is the genesis digest. */
  lemma {:induction false} GenesisInsideHead(m: Manifest, snaps: Snapshots, events: seq<Event>)
    requires Fold(m, snaps, events).Ok? && AllValid(m, events) && events != []
    ensures m.genesis < Fold(m, snaps, events).value.head
  {
    hide Advance;
    FoldFacts(m, snaps, events);
    LastExtendsHead(m, snaps, events);
    var prefix := events[..|events| - 1];
    var e := events[|events| - 1];
    FoldFacts(m, snaps, prefix);
    assert e.body.previous < OfEvent(e.body);
    if prefix != [] {
      assert AllValid(m, prefix);
      GenesisInsideHead(m, snaps, prefix);
    }
  }

  /**
   * Hash-chain binding: the head digest determines the whole ledger. Two accepted ledgers of a run with one head
   * are the same list, even when they were read beside different snapshot stores.
   */
  lemma {:induction false} HeadBindsLedger(m: Manifest, snaps: Snapshots, others: Snapshots, a: seq<Event>,
                                           b: seq<Event>)
    requires Fold(m, snaps, a).Ok? && AllValid(m, a)
    requires Fold(m, others, b).Ok? && AllValid(m, b)
    requires Fold(m, snaps, a).value.head == Fold(m, others, b).value.head
    ensures a == b
  {
    hide Fold, Advance;
    FoldFacts(m, snaps, a);
    FoldFacts(m, others, b);
    if a == [] || b == [] {
      if a != [] {
        GenesisInsideHead(m, snaps, a);
      }
      if b != [] {
        GenesisInsideHead(m, others, b);
      }
    } else {
      LastExtendsHead(m, snaps, a);
      LastExtendsHead(m, others, b);
      HeadBindsLedger(m, snaps, others, a[..|a| - 1], b[..|b| - 1]);
      assert a == a[..|a| - 1] + [a[|a| - 1]];
      assert b == b[..|b| - 1] + [b[|b| - 1]];
    }
  }

  /**
   * A fixed marker set admits one event list: any deletion, insertion, reordering, truncation or edit of the
   * ledger it was written for is refused.
   */
  lemma MarkersBindLedger(m: Manifest, commits: map<int, CommitMarker>, a: seq<Event>, b: seq<Event>)
    requires AllValid(m, a) && MarkersBind(m, commits, a)
    requires AllValid(m, b)
    ensures MarkersBind(m, commits, b) <==> b == a
  {
    if MarkersBind(m, commits, b) {
      forall i | 0 <= i < |a| ensures a[i] == b[i] {
        assert MarkerBinds(m, commits, a[i], i + 1) && MarkerBinds(m, commits, b[i], i + 1);
        assert OfEvent(a[i].body) == OfEvent(b[i].body);
      }
    }
  }

  /** The head an event was appended to. */
  lemma {:induction false} PreviousOf(m: Manifest, snaps: Snapshots, events: seq<Event>, i: nat)
    requires Fold(m, snaps, events).Ok? && i < |events|
    ensures events[i].body.previous == (if i == 0 then m.genesis else events[i - 1].digest)
  {
    hide Fold, Advance;
    var upTo := events[..i + 1];
    FoldPrefix(m, snaps, events, i + 1);
    LastExtendsHead(m, snaps, upTo);
    assert upTo[..|upTo| - 1] == events[..i];
    FoldFacts(m, snaps, events[..i]);
  }

  /** Linear history: no head of an accepted ledger has been extended twice. */
  lemma OneSuccessorPerHead(m: Manifest, snaps: Snapshots, events: seq<Event>, i: nat, j: nat)
    requires Fold(m, snaps, events).Ok? && AllValid(m, events)
    requires i < j < |events|
    ensures events[i].body.previous != events[j].body.previous
  {
    hide Fold, Advance;
    FoldFacts(m, snaps, events);
    PreviousOf(m, snaps, events, i);
    PreviousOf(m, snaps, events, j);
    if i == 0 {
      FoldPrefix(m, snaps, events, j);
      FoldFacts(m, snaps, events[..j]);
      assert AllValid(m, events[..j]);
      GenesisInsideHead(m, snaps, events[..j]);
      assert events[j - 1].digest == events[..j][j - 1].digest;
    }
  }

  // ---- command identity ----

  lemma {:induction false} CommandsAreUnique(m: Manifest, snaps: Snapshots, events: seq<Event>, i: nat, j: nat)
    requires Fold(m, snaps, events).Ok? && i < j < |events|
    ensures events[i].body.commandId != events[j].body.commandId
  {
    var prefix := events[..|events| - 1];
    if j < |events| - 1 {
      CommandsAreUnique(m, snaps, prefix, i, j);
    } else {
      FoldFacts(m, snaps, prefix);
      assert prefix[i].body.commandId in CommandIds(prefix);
    }
  }

  /**
   * Idempotent commands, from any later ledger: a committed command resubmitted unchanged is answered with the
   * current projection and appends nothing; its ID with any changed input is refused.
   */
  lemma ResubmissionNeverAppends(m: Manifest, f: Files, i: nat, cmd: Command)
    requires ReadEvents(m, f).Ok? && Fold(m, f.snapshots, f.journal.records).Ok? && f.freeze.None?
    requires i < |f.journal.records| && f.journal.records[i].body.commandId == cmd.commandId
    ensures f.journal.records[i].body.commandDigest == OfCommand(cmd)
            ==> AppendPlan(m, f, cmd) == Ok(NoOp(Project(m, f.snapshots, false, f.journal.records).value))
    ensures f.journal.records[i].body.commandDigest != OfCommand(cmd) ==> AppendPlan(m, f, cmd) == Err(Stale)
  {
    hide Fold, Advance, MayEnter;
    var events := f.journal.records;
    FoldFacts(m, f.snapshots, events);
    SearchFindsCommand(events, cmd.commandId);
    assert events[i].body.commandId in CommandIds(events);
    var k :| 0 <= k < |events| && events[k] == FirstWithCommand(events, cmd.commandId).value
             && events[k].body.commandId == cmd.commandId;
    if k < i {
      CommandsAreUnique(m, f.snapshots, events, k, i);
    } else if i < k {
      CommandsAreUnique(m, f.snapshots, events, i, k);
    }
  }

  /** Every command a ledger has taken lies inside its head digest. */
  lemma {:induction false} CommandInsideHead(m: Manifest, snaps: Snapshots, events: seq<Event>, i: nat)
    requires Fold(m, snaps, events).Ok? && AllValid(m, events) && i < |events|
    ensures events[i].body.commandDigest < Fold(m, snaps, events).value.head
  {
    hide Advance;
    FoldFacts(m, snaps, events);
    LastExtendsHead(m, snaps, events);
    var prefix, e := events[..|events| - 1], events[|events| - 1];
    assert e.body.commandDigest < OfEvent(e.body) && e.body.previous < OfEvent(e.body);
    if i < |prefix| {
      assert AllValid(m, prefix);
      CommandInsideHead(m, snaps, prefix, i);
    }
  }

  /** A command prepared against the current head is never taken for a retry: no ledger can contain it yet. */
  lemma CurrentCommandIsNew(m: Manifest, f: Files, cmd: Command)
    requires ReadEvents(m, f).Ok? && Fold(m, f.snapshots, f.journal.records).Ok?
    requires cmd.expectedHead == Fold(m, f.snapshots, f.journal.records).value.head
    ensures !(AppendPlan(m, f, cmd).Ok? && AppendPlan(m, f, cmd).value.NoOp?)
  {
    hide Fold, Advance, MayEnter, EventFor;
    var events := f.journal.records;
    SearchFindsCommand(events, cmd.commandId);
    if FirstWithCommand(events, cmd.commandId).Some? {
      var i :| 0 <= i < |events| && events[i] == FirstWithCommand(events, cmd.commandId).value;
      CommandInsideHead(m, f.snapshots, events, i);
      assert cmd.expectedHead < OfCommand(cmd);
    }
  }

  // ---- reservations ----

  predicate Clash(d: Decision, e: Decision)
    requires d.Reservation? && e.Reservation?
  {
    d.idempotencyKey == e.idempotencyKey || d.businessKey == e.businessKey || d.authority == e.authority
  }

  /** No two reservations of the ledger, across all revisions, share a key, a remedy or an authority. */
  ghost predicate ReservationsDistinct(events: seq<Event>) {
    forall i, j :: 0 <= i < j < |events| && IsReservation(events[i]) && IsReservation(events[j])
      ==> !Clash(events[i].body.decision, events[j].body.decision)
  }

  /** The scan answers "no" only when nothing clashes. */
  lemma {:induction false} ScanClear(events: seq<Event>, a: Action, authority: string)
    requires ScanReservations(events, a, authority) == Ok(false)
    ensures forall i :: 0 <= i < |events| && IsReservation(events[i])
              ==> && events[i].body.decision.idempotencyKey != a.terms.idempotencyKey
                  && events[i].body.decision.businessKey != a.terms.businessKey
                  && events[i].body.decision.authority != authority
  {
    if events != [] {
      ScanClear(events[1..], a, authority);
      forall i | 0 <= i < |events| && IsReservation(events[i])
        ensures && events[i].body.decision.idempotencyKey != a.terms.idempotencyKey
                && events[i].body.decision.businessKey != a.terms.businessKey
                && events[i].body.decision.authority != authority
      {
        if i > 0 {
          assert events[1..][i - 1] == events[i];
        }
      }
    }
  }

  function ReservationOf(a: Action, authority: Authority): Decision {
    Reservation(a.contract, a.terms.payload, authority.id, authority.route, a.terms.businessKey,
                a.terms.idempotencyKey, a.terms.operation)
  }

  /** The scan answers "retry" at the reservation of this very action, wherever it stands. */
  lemma {:induction false} ScanFindsRetry(events: seq<Event>, i: nat, a: Action, authority: Authority)
    requires ReservationsDistinct(events) && i < |events| && IsReservation(events[i])
    requires events[i].body.decision == ReservationOf(a, authority)
    ensures ScanReservations(events, a, authority.id) == Ok(true)
  {
    if i > 0 {
      var rest := events[1..];
      assert rest[i - 1] == events[i];
      assert ReservationsDistinct(rest) by {
        forall p, q | 0 <= p < q < |rest| && IsReservation(rest[p]) && IsReservation(rest[q])
          ensures !Clash(rest[p].body.decision, rest[q].body.decision)
        {
          assert rest[p] == events[p + 1] && rest[q] == events[q + 1];
        }
      }
      ScanFindsRetry(rest, i - 1, a, authority);
    }
  }

  lemma AppendedReservationIsDistinct(events: seq<Event>, e: Event, a: Action, authority: Authority)
    requires ReservationsDistinct(events) && ScanReservations(events, a, authority.id) == Ok(false)
    requires IsReservation(e) ==> e.body.decision == ReservationOf(a, authority)
    ensures ReservationsDistinct(events + [e])
  {
    ScanClear(events, a, authority.id);
  }

  /** Reservation uniqueness is kept by the only writer of reservations. */
  lemma {:induction false} ReserveKeepsDistinct(m: Manifest, f: Files, a: Action, authority: Authority,
                                                commandId: CommandId)
    requires ReservationsDistinct(f.journal.records)
    requires var plan := ReservePlan(m, f, a, authority, commandId); plan.Ok? && plan.value.Commit?
    ensures var e := ReservePlan(m, f, a, authority, commandId).value.event;
            && IsReservation(e) && e.body.decision == ReservationOf(a, authority)
            && e.body.links == map[ActionId := a.terms.actionId, ApprovalId := authority.id]
            && ReservationsDistinct(f.journal.records + [e])
  {
    hide Fold, Project, AppendPlan, ReservationsDistinct, ScanReservations, ValidEvent, AcceptableHeads;
    var current := Project(m, f.snapshots, f.freeze.Some?, f.journal.records).value;
    AppendAgreesWithReplay(m, f, ReservationCommand(a, authority, current, commandId));
    AppendedReservationIsDistinct(f.journal.records, ReservePlan(m, f, a, authority, commandId).value.event, a,
                                  authority);
  }

  lemma OtherEventsKeepDistinct(events: seq<Event>, e: Event)
    requires ReservationsDistinct(events) && !IsReservation(e)
    ensures ReservationsDistinct(events + [e])
  {
  }

  /** An exact retry of any earlier reservation is a no-op, whatever state the run has moved to since. */
  lemma ReservationRetryIsNoOp(m: Manifest, f: Files, i: nat, a: Action, authority: Authority, commandId: CommandId)
    requires ReadEvents(m, f).Ok? && Fold(m, f.snapshots, f.journal.records).Ok?
    requires ReservationsDistinct(f.journal.records) && AuthorityBinds(a, authority)
    requires i < |f.journal.records| && IsReservation(f.journal.records[i])
    requires f.journal.records[i].body.decision == ReservationOf(a, authority)
    ensures ReservePlan(m, f, a, authority, commandId)
            == Ok(NoOp(Project(m, f.snapshots, f.freeze.Some?, f.journal.records).value))
  {
    hide Advance, AppendPlan, AcceptableHeads;
    FoldFacts(m, f.snapshots, f.journal.records);
    ScanFindsRetry(f.journal.records, i, a, authority);
  }

  // ---- freeze ----

  /**
   * A sealed ledger never moves: every writer, retry and recovery included, leaves the run directory as it is, so
   * the head and revision in the seal stay those of the run. Only the exact retry of an earlier reservation is
   * answered, with the current projection; everything else is refused.
   */
  lemma SealedLedgerNeverMoves(m: Manifest, f: Files, cmd: Command, a: Action, authority: Authority, batch: Batch,
                               eventType: EventType, kind: string, id: string, revision: int, head: Digest,
                               commandId: CommandId, power: Power)
    requires f.freeze.Some?
    ensures AppendRun(m, f, cmd, power) == (f, Err(Frozen)) && RecoverRun(m, f, power) == (f, Err(Frozen))
    ensures FreezeRun(m, f, power) == (f, Err(Frozen))
    ensures var plan := ReservePlan(m, f, a, authority, commandId); !(plan.Ok? && plan.value.Commit?)
    ensures var (g, r) := ReserveRun(m, f, a, authority, commandId, power);
            && g == f
            && (r.Ok? <==> AuthorityBinds(a, authority) && Current(m, f).Ok?
                           && ScanReservations(f.journal.records, a, authority.id) == Ok(true))
            && (r.Ok? ==> r == Current(m, f))
    ensures RevisionRun(m, f, RevisePlan(m, f, batch, eventType, kind, id, revision, head, commandId), power)
            == (f, Err(Frozen))
    ensures RevisionRun(m, f, ReopenPlan(m, f, batch, revision, head, commandId), power) == (f, Err(Frozen))
  {
    hide Fold, Project, ScanReservations;
  }

  // ---- checkpoints ----

  /**
   * Cache validity. A checkpoint once written is still there in every later state of the run directory, and
   * still passes the check a resuming reader makes, frozen or not.
   */
  lemma CheckpointStaysValid(m: Manifest, f: Files, g: Files, k: int)
    requires LedgerInv(m, f) && LedgerInv(m, g) && Extends(f, g)
    requires k in f.checkpoints && Tidy(g)
    ensures k in g.checkpoints && g.checkpoints[k] == f.checkpoints[k] && f.checkpoints[k].sequence == k
    ensures ReadEvents(m, g) == Ok(Committed(g))
    ensures CheckpointValid(m, g, f.checkpoints[k], Committed(g))
  {
    hide Fold;
    ReadableIffTidy(m, g);
    assert 1 <= k <= |Committed(f)|;
    assert g.checkpoints[k].sequence == k && !g.checkpoints[k].frozen;
  }
}
