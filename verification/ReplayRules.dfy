/**
 * Replay without the replay loop: which event lists are accepted, said of each event and its own past, and what an
 * accepted list means, said of its last event.
 */
module ReplayRules {
  import opened Results
  import opened Workflow
  import opened Records
  import opened Ledger
  import opened LedgerInvariant
  import opened RevisionIsolation

  // ---- where a list of events leaves a run ----

  function HeadAfter(m: Manifest, past: seq<Event>): Digest {
    if past == [] then m.genesis else past[|past| - 1].digest
  }

  function RevisionAfter(m: Manifest, past: seq<Event>): int {
    if past == [] then m.initialRevision else past[|past| - 1].body.revision
  }

  function StateAfter(past: seq<Event>): Option<WorkflowState> {
    if past == [] then None else Some(past[|past| - 1].body.toState)
  }

  /** The number under which the snapshot of a revision is stored; the first is always number one. */
  function PinKey(m: Manifest, revision: int): int {
    if revision == m.initialRevision then 1 else revision
  }

  /** A snapshot of this case and revision is stored, and the first is the one the manifest names. */
  predicate Pinned(m: Manifest, snaps: Snapshots, revision: int) {
    && PinKey(m, revision) in snaps
    && snaps[PinKey(m, revision)].caseId == m.caseId && snaps[PinKey(m, revision)].revision == revision
    && (revision == m.initialRevision ==> m.snapshot == OfBatch(snaps[PinKey(m, revision)]))
  }

  // ---- one event against its past ----

  predicate StartsRevision(b: EventBody) {
    b.eventType == SourceRevisionChanged || b.eventType == CaseReopened
  }

  predicate FreshCommand(past: seq<Event>, id: CommandId) {
    forall j :: 0 <= j < |past| ==> past[j].body.commandId != id
  }

  /** A revision retires by name, in order, everything that was in force. */
  ghost predicate RetiresAll(past: seq<Event>, d: Decision) {
    exists active :: InForce(active, past)
                     && (active == map[]
                         || (d.Invalidation? && d.ids == SortedValues(active))
                         || (d.Reopening? && d.ids == SortedValues(active)))
  }

  /** The event carries the pins of its own revision's snapshot; a revision's snapshot was taken at the head before. */
  predicate CarriesPins(m: Manifest, snaps: Snapshots, b: EventBody) {
    && Pinned(m, snaps, b.revision)
    && var batch := snaps[PinKey(m, b.revision)];
    && b.cut == batch.cut && b.pin == batch.pin && b.snapshot == OfBatch(batch)
    && (StartsRevision(b) ==> batch.ledgerHead == b.previous)
  }

  ghost predicate Continues(m: Manifest, snaps: Snapshots, past: seq<Event>, b: EventBody) {
    && b.sequence == |past| + 1 && b.previous == HeadAfter(m, past) && FreshCommand(past, b.commandId)
    && b.previousRevision == RevisionAfter(m, past) && b.fromState == StateAfter(past)
    && b.revision == (if StartsRevision(b) then b.previousRevision + 1 else b.previousRevision)
    && (StartsRevision(b) ==> RetiresAll(past, b.decision))
    && CarriesPins(m, snaps, b)
    && LawfulMove(b.fromState, b.eventType, b.toState, b.actionCount)
  }

  ghost predicate AllContinue(m: Manifest, snaps: Snapshots, events: seq<Event>) {
    && Pinned(m, snaps, m.initialRevision)
    && forall i :: 0 <= i < |events| ==> Continues(m, snaps, events[..i], events[i].body)
  }

  // ---- the loop against the rules ----

  /** What an accepted list means, off its last event and the stored snapshot. */
  ghost predicate Means(m: Manifest, snaps: Snapshots, events: seq<Event>, r: Replay) {
    && r.revision == RevisionAfter(m, events) && r.head == HeadAfter(m, events) && r.state == StateAfter(events)
    && Pinned(m, snaps, r.revision)
    && var batch := snaps[PinKey(m, r.revision)];
    && r.cut == batch.cut && r.pin == batch.pin && r.snapshot == OfBatch(batch)
  }

  lemma PinnedLoads(m: Manifest, snaps: Snapshots, revision: int)
    ensures LoadBatch(m, snaps, revision)
            == if Pinned(m, snaps, revision) then Ok(snaps[PinKey(m, revision)]) else Err(Integrity)
    ensures Pinned(m, snaps, revision)
            ==> && snaps[PinKey(m, revision)].revision == revision
                && (revision == m.initialRevision ==> m.snapshot == OfBatch(snaps[PinKey(m, revision)]))
  {
  }

  lemma {:induction false} ReplayMeans(m: Manifest, snaps: Snapshots, events: seq<Event>)
    requires Fold(m, snaps, events).Ok?
    ensures Means(m, snaps, events, Fold(m, snaps, events).value)
  {
    hide ApplyEvent, SortedValues, ClaimedInvalidations, ObjectLinks, LoadBatch, Pinned;
    if events == [] {
      PinnedLoads(m, snaps, m.initialRevision);
    } else {
      var prefix, b := events[..|events| - 1], events[|events| - 1].body;
      ReplayMeans(m, snaps, prefix);
      PinnedLoads(m, snaps, b.revision);
    }
  }

  lemma FreshMeansUnknown(past: seq<Event>, id: CommandId)
    ensures FreshCommand(past, id) <==> id !in CommandIds(past)
  {
  }

  lemma OnlyInForce(past: seq<Event>, one: Links, two: Links)
    requires InForce(one, past) && InForce(two, past)
    ensures one == two
  {
    hide LastLink;
    forall k | k in one ensures k in two && two[k] == one[k] {
    }
    forall k | k in two ensures k in one {
    }
  }

  lemma RetiringIsClaiming(past: seq<Event>, active: Links, d: Decision)
    requires InForce(active, past)
    ensures RetiresAll(past, d) <==> (active == map[] || ClaimedInvalidations(d) == Some(SortedValues(active)))
  {
    hide InForce, SortedValues;
    if RetiresAll(past, d) {
      var other :| InForce(other, past)
                   && (other == map[]
                       || (d.Invalidation? && d.ids == SortedValues(other))
                       || (d.Reopening? && d.ids == SortedValues(other)));
      OnlyInForce(past, active, other);
    }
  }

  /** A revision is entered exactly under a fresh number, on its own snapshot, with everything in force retired. */
  lemma EntersExactly(m: Manifest, snaps: Snapshots, past: seq<Event>, r: Replay, b: EventBody)
    requires Means(m, snaps, past, r) && InForce(r.active, past) && b.previous == r.head
    ensures var next := EnterRevision(m, snaps, r, b);
            && (next.Ok? && b.cut == next.value.cut && b.pin == next.value.pin && b.snapshot == next.value.snapshot
                && StartsRevision(b)
                <==> b.revision == r.revision + 1 && RetiresAll(past, b.decision) && CarriesPins(m, snaps, b)
                     && StartsRevision(b))
  {
    RetiringIsClaiming(past, r.active, b.decision);
    PinnedLoads(m, snaps, b.revision);
    hide RetiresAll, InForce, SortedValues, ClaimedInvalidations, LoadBatch, Pinned;
  }

  lemma StepExactly(m: Manifest, snaps: Snapshots, past: seq<Event>, r: Replay, e: Event)
    requires Fold(m, snaps, past) == Ok(r)
    ensures Advance(m, snaps, r, |past| + 1, e).Ok? <==> Continues(m, snaps, past, e.body)
  {
    hide Fold, EnterRevision, RetiresAll, InForce, LawfulMove, ApplyEvent, CarriesPins, Pinned, ObjectLinks;
    var b := e.body;
    ReplayMeans(m, snaps, past);
    ActiveIsLastLink(m, snaps, past);
    FoldFacts(m, snaps, past);
    FreshMeansUnknown(past, b.commandId);
    ReplayTakesLawfulMoves(r.state, b.eventType, b.toState, b.actionCount);
    if b.previous == r.head {
      if StartsRevision(b) {
        EntersExactly(m, snaps, past, r, b);
      } else if b.revision == r.revision {
        SamePins(m, snaps, past, r, b);
      }
    }
  }

  lemma SamePins(m: Manifest, snaps: Snapshots, past: seq<Event>, r: Replay, b: EventBody)
    requires Means(m, snaps, past, r) && b.revision == r.revision && !StartsRevision(b)
    ensures b.cut == r.cut && b.pin == r.pin && b.snapshot == r.snapshot <==> CarriesPins(m, snaps, b)
  {
  }

  /**
   * Replay, exactly. The loop accepts a list if and only if each event continues its own past: next number and head, a
   * command not used before, the state and revision the past left, the pins of its revision's stored snapshot, a lawful
   * move, and for a revision the next number, a snapshot taken at the head and every object in force retired by name.
   */
  lemma {:induction false} ReplayAcceptsExactly(m: Manifest, snaps: Snapshots, events: seq<Event>)
    ensures Fold(m, snaps, events).Ok? <==> AllContinue(m, snaps, events)
  {
    hide Continues, Advance, LoadBatch, Pinned;
    if events == [] {
      PinnedLoads(m, snaps, m.initialRevision);
    } else {
      var n := |events| - 1;
      var prefix, e := events[..n], events[n];
      ReplayAcceptsExactly(m, snaps, prefix);
      if Fold(m, snaps, prefix).Ok? {
        StepExactly(m, snaps, prefix, Fold(m, snaps, prefix).value, e);
      }
      assert forall i :: 0 <= i < n ==> prefix[..i] == events[..i] && prefix[i] == events[i];
    }
  }
}
