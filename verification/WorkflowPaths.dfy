/** Which histories of workflow states an accepted ledger can show, revision segment by revision segment. */
module WorkflowPaths {
  import opened Results
  import opened Workflow
  import opened Records
  import opened Ledger

  /** The last event that started a source revision, or the first event of the run. */
  function SegmentStart(events: seq<Event>): nat {
    if events == [] then 0
    else if IsRevision(events[|events| - 1].body.eventType) then |events| - 1
    else SegmentStart(events[..|events| - 1])
  }

  predicate Enters(e: Event, s: WorkflowState) {
    e.body.toState == s && e.body.fromState != Some(s)
  }

  /** The states of `path` were entered in this order since event number `start`. */
  ghost predicate Visited(events: seq<Event>, start: nat, path: seq<WorkflowState>)
    decreases |path|
  {
    path == [] || exists i :: start <= i < |events| && Enters(events[i], path[|path| - 1])
                              && Visited(events[..i], start, path[..|path| - 1])
  }

  ghost predicate NeverReserved(events: seq<Event>, start: nat) {
    forall i :: start <= i < |events| ==> !Enters(events[i], ActionReserved)
  }

  ghost predicate ReservedAtMostOnce(events: seq<Event>, start: nat) {
    forall i, j :: start <= i < j < |events| ==> !(Enters(events[i], ActionReserved)
                                                   && Enters(events[j], ActionReserved))
  }

  predicate IsDirectCondition(e: Event) {
    && e.body.fromState == Some(RecommendationReady) && e.body.toState == CommunicationReady
    && IsDirectNoAction(e.body.eventType) && e.body.actionCount == 0
  }

  /** A verified wait or no-new-action condition on a recommendation, in a segment that never reserved an action. */
  ghost predicate TookDirectCondition(events: seq<Event>, start: nat) {
    && NeverReserved(events, start) && Visited(events, start, [ContextReady, RecommendationReady])
    && exists i :: start <= i < |events| && IsDirectCondition(events[i])
  }

  /** From evidence to remedy: no state on the way can be skipped. */
  const FULL_CHAIN: seq<WorkflowState> :=
    [ContextReady, RecommendationReady, ActionPrepared, ActionReserved, ActionPending, Verifying, VerifiedRemedy]

  /** How far along the chain a state stands. */
  function Reached(s: WorkflowState): (n: nat)
    ensures n <= 7
  {
    match s
    case ContextReady => 1
    case RecommendationReady => 2
    case ControlStopped => 2
    case AwaitingChoice => 2
    case AwaitingApproval => 2
    case ActionPrepared => 3
    case ActionReserved => 4
    case ActionPending => 5
    case ActionRecovery => 5
    case Verifying => 6
    case VerificationFailed => 6
    case VerifiedRemedy => 7
    case _ => 0
  }

  /** The part of the chain a state implies. */
  function ChainTo(s: WorkflowState): seq<WorkflowState> {
    FULL_CHAIN[..Reached(s)]
  }

  predicate IsAfterOutcome(s: WorkflowState) {
    s in {CommunicationReady, Closed}
  }

  /** States that stand behind a reservation. */
  predicate IsConsequential(s: WorkflowState) {
    s in {ActionReserved, ActionPending, ActionRecovery, Verifying, VerificationFailed, VerifiedRemedy}
  }

  /** What the current state proves about the segment it stands in. */
  ghost predicate StateEarned(events: seq<Event>, start: nat, s: WorkflowState) {
    if IsAfterOutcome(s) then
      (Visited(events, start, FULL_CHAIN) && ReservedAtMostOnce(events, start)) || TookDirectCondition(events, start)
    else
      && Visited(events, start, ChainTo(s)) && s != Reopened
      && (if IsConsequential(s) then ReservedAtMostOnce(events, start) else NeverReserved(events, start))
  }

  function StateBefore(events: seq<Event>): Option<WorkflowState> {
    if |events| < 2 then None else Some(events[|events| - 2].body.toState)
  }

  /** What replay checks of the last event, in terms of the events alone. */
  lemma LastStep(m: Manifest, snaps: Snapshots, events: seq<Event>)
    requires Fold(m, snaps, events).Ok? && events != []
    ensures var e := events[|events| - 1].body;
            && Fold(m, snaps, events).value.state == Some(e.toState)
            && e.fromState == StateBefore(events)
            && ApplyEvent(e.fromState, e.eventType, e.toState, e.actionCount).Ok?
            && Fold(m, snaps, events[..|events| - 1]).Ok?
  {
    hide ApplyEvent, EnterRevision;
    var prefix := events[..|events| - 1];
    RevisionKeepsState(m, snaps, Fold(m, snaps, prefix).value, events[|events| - 1].body);
    if prefix != [] {
      assert Fold(m, snaps, prefix).value.state == Some(prefix[|prefix| - 1].body.toState) by {
        StateIsLast(m, snaps, prefix);
      }
    }
  }

  lemma RevisionKeepsState(m: Manifest, snaps: Snapshots, r: Replay, b: EventBody)
    ensures EnterRevision(m, snaps, r, b).Ok? ==> EnterRevision(m, snaps, r, b).value.state == r.state
  {
    hide SortedValues;
  }

  lemma StateIsLast(m: Manifest, snaps: Snapshots, events: seq<Event>)
    requires Fold(m, snaps, events).Ok? && events != []
    ensures Fold(m, snaps, events).value.state == Some(events[|events| - 1].body.toState)
  {
    hide ApplyEvent, EnterRevision;
  }

  lemma {:induction false} VisitedGrows(events: seq<Event>, e: Event, start: nat, path: seq<WorkflowState>)
    requires Visited(events, start, path)
    ensures Visited(events + [e], start, path)
  {
    if path != [] {
      var i :| start <= i < |events| && Enters(events[i], path[|path| - 1])
               && Visited(events[..i], start, path[..|path| - 1]);
      assert (events + [e])[..i] == events[..i] && (events + [e])[i] == events[i];
    }
  }

  lemma VisitedNext(events: seq<Event>, e: Event, start: nat, path: seq<WorkflowState>, s: WorkflowState)
    requires Visited(events, start, path) && Enters(e, s) && start <= |events|
    ensures Visited(events + [e], start, path + [s])
  {
    var all := events + [e];
    assert all[..|events|] == events && all[|events|] == e;
    assert (path + [s])[..|path|] == path;
  }

  lemma {:induction false} StartInRange(events: seq<Event>)
    ensures SegmentStart(events) <= |events| && (events != [] ==> SegmentStart(events) < |events|)
  {
    if events != [] {
      StartInRange(events[..|events| - 1]);
    }
  }

  /** One legal move inside a segment keeps what the state proves. */
  lemma MoveKeepsEarned(events: seq<Event>, e: Event, start: nat)
    requires events != [] && start < |events|
    requires StateEarned(events, start, events[|events| - 1].body.toState)
    requires e.body.fromState == Some(events[|events| - 1].body.toState) && !IsRevision(e.body.eventType)
    requires ApplyEvent(e.body.fromState, e.body.eventType, e.body.toState, e.body.actionCount).Ok?
    ensures StateEarned(events + [e], start, e.body.toState)
  {
    hide Visited, ApplyEvent, ChainTo;
    var s, t := events[|events| - 1].body.toState, e.body.toState;
    if s == t && IsAfterOutcome(s) {
      OutcomeGrows(events, e, start);
    } else if s == t {
      VisitedGrows(events, e, start, ChainTo(s));
    } else if IsAfterOutcome(t) {
      OutcomeMove(events, e, start, s);
    } else {
      ChainMove(events, e, start, s);
    }
  }

  lemma OutcomeGrows(events: seq<Event>, e: Event, start: nat)
    requires StateEarned(events, start, CommunicationReady) && !Enters(e, ActionReserved)
    ensures StateEarned(events + [e], start, CommunicationReady)
  {
    hide Visited;
    if Visited(events, start, FULL_CHAIN) && ReservedAtMostOnce(events, start) {
      VisitedGrows(events, e, start, FULL_CHAIN);
    } else {
      VisitedGrows(events, e, start, [ContextReady, RecommendationReady]);
      var i :| start <= i < |events| && IsDirectCondition(events[i]);
      assert (events + [e])[i] == events[i];
    }
  }

  lemma OutcomeMove(events: seq<Event>, e: Event, start: nat, s: WorkflowState)
    requires start < |events| && s == events[|events| - 1].body.toState && StateEarned(events, start, s)
    requires e.body.fromState == Some(s) && !IsRevision(e.body.eventType) && s != e.body.toState
    requires ApplyEvent(Some(s), e.body.eventType, e.body.toState, e.body.actionCount).Ok?
    requires IsAfterOutcome(e.body.toState)
    ensures StateEarned(events + [e], start, e.body.toState)
  {
    hide Visited;
    if s == RecommendationReady {
      assert ChainTo(s) == [ContextReady, RecommendationReady];
      VisitedGrows(events, e, start, [ContextReady, RecommendationReady]);
      assert IsDirectCondition((events + [e])[|events|]);
    } else if s == VerifiedRemedy {
      assert ChainTo(s) == FULL_CHAIN;
      VisitedGrows(events, e, start, FULL_CHAIN);
    } else {
      OutcomeGrows(events, e, start);
    }
  }

  /** A legal move short of the outcome goes one step along the chain, stays, or steps back into recovery. */
  lemma ChainStep(s: WorkflowState, t: EventType, target: WorkflowState, actionCount: int)
    requires LawfulMove(Some(s), t, target, actionCount) && !IsRevision(t) && s != target && !IsAfterOutcome(target)
    ensures || Reached(target) == Reached(s) || Reached(target) == Reached(s) - 1
            || (Reached(target) == Reached(s) + 1 && FULL_CHAIN[Reached(s)] == target)
  {
  }

  /** And it enters the consequential part only by reserving. */
  lemma ReservingStep(s: WorkflowState, t: EventType, target: WorkflowState, actionCount: int)
    requires LawfulMove(Some(s), t, target, actionCount) && !IsRevision(t) && s != target && !IsAfterOutcome(target)
    ensures !IsAfterOutcome(s) && target != Reopened
    ensures IsConsequential(target) <==> IsConsequential(s) || target == ActionReserved
    ensures target == ActionReserved ==> !IsConsequential(s)
  {
  }

  lemma PrefixSteps<T>(chain: seq<T>, n: nat)
    requires n <= |chain|
    ensures n > 0 ==> chain[..n][..n - 1] == chain[..n - 1]
    ensures n < |chain| ==> chain[..n] + [chain[n]] == chain[..n + 1]
  {
  }

  lemma ChainByLength(s: WorkflowState, t: WorkflowState)
    ensures Reached(t) == Reached(s) ==> ChainTo(t) == ChainTo(s)
    ensures Reached(t) == Reached(s) - 1 ==> ChainTo(s) != [] && ChainTo(s)[..|ChainTo(s)| - 1] == ChainTo(t)
    ensures Reached(t) == Reached(s) + 1 && FULL_CHAIN[Reached(s)] == t ==> ChainTo(s) + [t] == ChainTo(t)
  {
    hide Reached;
    assert |FULL_CHAIN| == 7;
    PrefixSteps(FULL_CHAIN, Reached(s));
  }

  lemma ChainMove(events: seq<Event>, e: Event, start: nat, s: WorkflowState)
    requires start < |events| && s == events[|events| - 1].body.toState && StateEarned(events, start, s)
    requires e.body.fromState == Some(s) && !IsRevision(e.body.eventType) && s != e.body.toState
    requires ApplyEvent(Some(s), e.body.eventType, e.body.toState, e.body.actionCount).Ok?
    requires !IsAfterOutcome(e.body.toState)
    ensures StateEarned(events + [e], start, e.body.toState)
  {
    hide Visited, ApplyEvent, ChainTo;
    var t := e.body.toState;
    ReplayTakesLawfulMoves(Some(s), e.body.eventType, t, e.body.actionCount);
    hide LawfulMove;
    ChainStep(s, e.body.eventType, t, e.body.actionCount);
    ReservingStep(s, e.body.eventType, t, e.body.actionCount);
    ChainByLength(s, t);
    hide IsConsequential, Reached;
    if ChainTo(t) == ChainTo(s) {
      VisitedGrows(events, e, start, ChainTo(s));
    } else if ChainTo(s) + [t] == ChainTo(t) {
      VisitedNext(events, e, start, ChainTo(s), t);
    } else {
      VisitedPrefix(events, start, ChainTo(s));
      VisitedGrows(events, e, start, ChainTo(t));
    }
  }

  /** The end of a visited path may be forgotten. */
  lemma {:induction false} VisitedPrefix(events: seq<Event>, start: nat, path: seq<WorkflowState>)
    requires Visited(events, start, path) && path != []
    ensures Visited(events, start, path[..|path| - 1])
  {
    var i :| start <= i < |events| && Visited(events[..i], start, path[..|path| - 1]);
    VisitedInLonger(events, i, start, path[..|path| - 1]);
  }

  lemma {:induction false} VisitedInLonger(events: seq<Event>, i: nat, start: nat, path: seq<WorkflowState>)
    requires i <= |events| && Visited(events[..i], start, path)
    ensures Visited(events, start, path)
  {
    if path != [] {
      var k :| start <= k < i && Enters(events[..i][k], path[|path| - 1])
               && Visited(events[..i][..k], start, path[..|path| - 1]);
      assert events[..i][..k] == events[..k];
    }
  }

  /** In every accepted ledger the current state is earned within its revision segment. */
  lemma {:induction false} AcceptedStateIsEarned(m: Manifest, snaps: Snapshots, events: seq<Event>)
    requires Fold(m, snaps, events).Ok? && events != []
    ensures StateEarned(events, SegmentStart(events), events[|events| - 1].body.toState)
  {
    hide Fold, StateEarned;
    var prefix, e := events[..|events| - 1], events[|events| - 1];
    assert events == prefix + [e];
    LastStep(m, snaps, events);
    StartInRange(events);
    if prefix == [] || IsRevision(e.body.eventType) {
      SegmentOpens(events);
    } else {
      AcceptedStateIsEarned(m, snaps, prefix);
      StartInRange(prefix);
      MoveKeepsEarned(prefix, e, SegmentStart(prefix));
    }
  }

  lemma {:induction false} SegmentOpens(events: seq<Event>)
    requires events != [] && (|events| == 1 || IsRevision(events[|events| - 1].body.eventType))
    requires var e := events[|events| - 1].body;
             e.fromState == StateBefore(events) && ApplyEvent(e.fromState, e.eventType, e.toState, e.actionCount).Ok?
    ensures StateEarned(events, SegmentStart(events), events[|events| - 1].body.toState)
  {
    hide StateEarned;
    StartInRange(events);
    var s := events[|events| - 1].body.toState;
    assert s in {Received, EvidenceBlocked};
    EarnedByReservingNothing(events, SegmentStart(events), s);
  }

  /** Where a segment opens, nothing has to lie behind a state. */
  lemma EarnedByReservingNothing(events: seq<Event>, start: nat, s: WorkflowState)
    requires s in {Received, EvidenceBlocked}
    ensures StateEarned(events, start, s) <==> NeverReserved(events, start)
  {
  }

  /**
   * Every closure was earned: since the last revision the run entered context, recommendation, prepared, reserved,
   * pending, verifying and verified remedy in this order with a single reservation, or it took a verified zero-action
   * condition on a recommendation and reserved nothing.
   */
  lemma ClosureIsEarned(m: Manifest, snaps: Snapshots, events: seq<Event>, i: nat)
    requires Fold(m, snaps, events).Ok? && i < |events| && events[i].body.toState == Closed
    ensures var run := events[..i + 1];
            var start := SegmentStart(run);
            || (Visited(run, start, FULL_CHAIN) && ReservedAtMostOnce(run, start))
            || TookDirectCondition(run, start)
  {
    hide Fold;
    PrefixReplays(m, snaps, events, i + 1);
    AcceptedStateIsEarned(m, snaps, events[..i + 1]);
  }

  /** The whole consequential chain ends by entering the verified state. */
  lemma ChainEndsVerified(events: seq<Event>, start: nat)
    requires Visited(events, start, FULL_CHAIN)
    ensures exists k :: start <= k < |events| && Enters(events[k], VerifiedRemedy)
  {
    var k :| start <= k < |events| && Enters(events[k], FULL_CHAIN[|FULL_CHAIN| - 1])
             && Visited(events[..k], start, FULL_CHAIN[..|FULL_CHAIN| - 1]);
  }

  lemma {:induction false} PrefixReplays(m: Manifest, snaps: Snapshots, events: seq<Event>, k: nat)
    requires Fold(m, snaps, events).Ok? && k <= |events|
    ensures Fold(m, snaps, events[..k]).Ok?
  {
    hide Advance;
    if k < |events| {
      assert events[..|events| - 1][..k] == events[..k];
      PrefixReplays(m, snaps, events[..|events| - 1], k);
    } else {
      assert events[..k] == events;
    }
  }

  /** A run reserves at most one action per revision segment, and the unreachable state stays unreachable. */
  lemma OneReservationPerSegment(m: Manifest, snaps: Snapshots, events: seq<Event>)
    requires Fold(m, snaps, events).Ok? && events != []
    ensures ReservedAtMostOnce(events, SegmentStart(events)) && events[|events| - 1].body.toState != Reopened
  {
    hide Fold, Visited;
    AcceptedStateIsEarned(m, snaps, events);
  }

  /** A control stop is final: no later event of an accepted ledger leaves it, not even a source revision. */
  lemma {:induction false} ControlStopIsFinal(m: Manifest, snaps: Snapshots, events: seq<Event>, i: nat)
    requires Fold(m, snaps, events).Ok? && i < |events| && events[i].body.toState == ControlStopped
    ensures events[|events| - 1].body.toState == ControlStopped
  {
    hide Fold;
    if i < |events| - 1 {
      LastStep(m, snaps, events);
      ControlStopIsFinal(m, snaps, events[..|events| - 1], i);
    }
  }

  /**
   * No action without evidence and a recommendation. Whenever an accepted ledger prepares an action, the same revision
   * segment has been through context and then a recommendation, and the step itself left a recommendation or an
   * approval.
   */
  lemma PreparationIsEarned(m: Manifest, snaps: Snapshots, events: seq<Event>, i: nat)
    requires Fold(m, snaps, events).Ok? && i < |events| && Enters(events[i], ActionPrepared)
    ensures var run := events[..i + 1];
            Visited(run, SegmentStart(run), [ContextReady, RecommendationReady, ActionPrepared])
    ensures events[i].body.fromState in {Some(RecommendationReady), Some(AwaitingApproval)}
  {
    hide Fold, Visited, ApplyEvent;
    PrefixReplays(m, snaps, events, i + 1);
    AcceptedStateIsEarned(m, snaps, events[..i + 1]);
    assert ChainTo(ActionPrepared) == [ContextReady, RecommendationReady, ActionPrepared];
    LastStep(m, snaps, events[..i + 1]);
    var b := events[i].body;
    ReplayTakesLawfulMoves(b.fromState, b.eventType, b.toState, b.actionCount);
  }

  /** Every event of an accepted ledger is a lawful move from where its predecessor left the run. */
  lemma AcceptedMovesAreLawful(m: Manifest, snaps: Snapshots, events: seq<Event>, i: nat)
    requires Fold(m, snaps, events).Ok? && i < |events|
    ensures var b := events[i].body;
            && b.fromState == (if i == 0 then None else Some(events[i - 1].body.toState))
            && LawfulMove(b.fromState, b.eventType, b.toState, b.actionCount)
  {
    hide Fold, ApplyEvent, LawfulMove;
    PrefixReplays(m, snaps, events, i + 1);
    LastStep(m, snaps, events[..i + 1]);
    var b := events[i].body;
    ReplayTakesLawfulMoves(b.fromState, b.eventType, b.toState, b.actionCount);
  }
}
