/** The read-only verifier: it re-reads the committed effects itself and never lets a receipt decide. */
module Verifier {
  import opened Results
  import opened Records
  import opened Actions
  import opened Journals
  import opened EffectReaders
  import opened EffectJournals
  import opened EffectScripts

  // ---- the classification ----

  predicate Matches(t: ActionTerms, contract: Digest, e: Effect) {
    && e.actionId == t.actionId && e.contract == contract && e.caseId == t.caseId
    && e.caseRevision == t.caseRevision && e.businessKey == t.businessKey
  }

  /** `_matching`. */
  function Matching(a: Action, effects: seq<Effect>): seq<Effect> {
    if effects == [] then []
    else (if Matches(a.terms, a.contract, effects[0]) then [effects[0]] else []) + Matching(a, effects[1..])
  }

  /** What each source has to say for its part of the remedy to count. */
  predicate AsOrdered(t: ActionTerms, s: Source, e: Effect) {
    && e.quantity == Some(t.quantity)
    && match s
       case PAYMENT => e.amountCents == Some(t.amountCents) && e.currency == Some(t.currency) && e.refundCommitted
       case OMS => e.replacementCreated && e.replacementOrderId.Some?
       case INVENTORY => e.inventoryReserved
       case WMS => e.wmsAccepted
  }

  /** `_exact_one`. */
  predicate ExactOne(t: ActionTerms, s: Source, matches: seq<Effect>) {
    |matches| == 1 && !matches[0].stale && !matches[0].conflicting && AsOrdered(t, s, matches[0])
  }

  predicate Passed(a: Action, seen: map<Source, seq<Effect>>) {
    forall s :: s in RequiredSources(a.terms.operation) ==> s in seen && ExactOne(a.terms, s, Matching(a, seen[s]))
  }

  function Digests(effects: seq<Effect>): (digests: seq<Digest>)
    ensures |digests| == |effects| && forall i :: 0 <= i < |effects| ==> digests[i] == OfEffect(effects[i])
  {
    seq(|effects|, i requires 0 <= i < |effects| => OfEffect(effects[i]))
  }

  function VerificationFrom(a: Action, seen: map<Source, seq<Effect>>, id: string, receiptPresent: bool): Verification {
    var passed := Passed(a, seen);
    var milestone := match a.terms.operation
                     case Refund => if passed then RefundCommittedExact else RefundMissingOrInexact
                     case Reship => if passed then ReplacementCreatedReservedAccepted else ReplacementMissingOrInexact;
    RemedyCheck(id, a.terms.actionId, a.contract, a.terms.caseId, a.terms.caseRevision, a.terms.operation,
                if passed then RemedyVerified else VerificationFailure, milestone,
                map s | s in seen && s in RequiredSources(a.terms.operation) :: Digests(Matching(a, seen[s])),
                receiptPresent)
  }

  // ---- the classification, read off the records ----

  /** The record names this action, its contract and what it is for. */
  predicate BelongsTo(e: Effect, a: Action) {
    && e.contract == a.contract && e.actionId == a.terms.actionId && e.businessKey == a.terms.businessKey
    && e.caseId == a.terms.caseId && e.caseRevision == a.terms.caseRevision
  }

  /** The record shows this source's part of the remedy done, in the right amount. */
  predicate Proves(e: Effect, t: ActionTerms, s: Source) {
    && !e.stale && !e.conflicting && e.quantity == Some(t.quantity)
    && (s == PAYMENT ==> e.refundCommitted && e.amountCents == Some(t.amountCents) && e.currency == Some(t.currency))
    && (s == OMS ==> e.replacementCreated && e.replacementOrderId != None)
    && (s == INVENTORY ==> e.inventoryReserved)
    && (s == WMS ==> e.wmsAccepted)
  }

  ghost predicate OnlyMatch(a: Action, effects: seq<Effect>, i: int) {
    && 0 <= i < |effects| && BelongsTo(effects[i], a)
    && forall j :: 0 <= j < |effects| && BelongsTo(effects[j], a) ==> j == i
  }

  /** Exactly one record of this source belongs to the action, and it proves its part. */
  ghost predicate ProvenBy(a: Action, seen: map<Source, seq<Effect>>, s: Source) {
    s in seen && exists i :: OnlyMatch(a, seen[s], i) && Proves(seen[s][i], a.terms, s)
  }

  lemma {:induction false} NothingMatches(a: Action, effects: seq<Effect>)
    ensures Matching(a, effects) == [] <==> forall i :: 0 <= i < |effects| ==> !BelongsTo(effects[i], a)
  {
    if effects != [] {
      NothingMatches(a, effects[1..]);
      assert forall i :: 1 <= i < |effects| ==> effects[i] == effects[1..][i - 1];
      assert forall i :: 0 <= i < |effects[1..]| ==> effects[1..][i] == effects[i + 1];
    }
  }

  lemma OnlyMatchShifts(a: Action, effects: seq<Effect>, i: int)
    requires effects != [] && !BelongsTo(effects[0], a)
    ensures OnlyMatch(a, effects, i) <==> OnlyMatch(a, effects[1..], i - 1)
  {
    hide BelongsTo;
    var rest := effects[1..];
    assert forall j :: 0 <= j < |rest| ==> rest[j] == effects[j + 1];
    if OnlyMatch(a, rest, i - 1) {
      forall j | 0 <= j < |effects| && BelongsTo(effects[j], a) ensures j == i {
        assert rest[j - 1] == effects[j];
      }
    }
  }

  lemma {:induction false} SearchFindsOnlyMatch(a: Action, effects: seq<Effect>, i: int)
    requires OnlyMatch(a, effects, i)
    ensures Matching(a, effects) == [effects[i]]
  {
    if i == 0 {
      NothingMatches(a, effects[1..]);
      assert forall j :: 0 <= j < |effects[1..]| ==> effects[1..][j] == effects[j + 1];
    } else {
      OnlyMatchShifts(a, effects, i);
      SearchFindsOnlyMatch(a, effects[1..], i - 1);
    }
  }

  lemma {:induction false} SingleMatchIsOnly(a: Action, effects: seq<Effect>) returns (i: int)
    requires |Matching(a, effects)| == 1
    ensures OnlyMatch(a, effects, i)
  {
    if BelongsTo(effects[0], a) {
      NothingMatches(a, effects[1..]);
      assert forall j :: 1 <= j < |effects| ==> effects[j] == effects[1..][j - 1];
      i := 0;
    } else {
      i := SingleMatchIsOnly(a, effects[1..]);
      i := i + 1;
      OnlyMatchShifts(a, effects, i);
    }
  }

  lemma SourceIsProven(a: Action, seen: map<Source, seq<Effect>>, s: Source)
    ensures s in seen && ExactOne(a.terms, s, Matching(a, seen[s])) <==> ProvenBy(a, seen, s)
  {
    hide Matching, BelongsTo;
    if s in seen && |Matching(a, seen[s])| == 1 {
      var i := SingleMatchIsOnly(a, seen[s]);
      SearchFindsOnlyMatch(a, seen[s], i);
    }
    if ProvenBy(a, seen, s) {
      var i :| OnlyMatch(a, seen[s], i) && Proves(seen[s][i], a.terms, s);
      SearchFindsOnlyMatch(a, seen[s], i);
    }
  }

  /**
   * The whole verdict, over any records at all. A refund is verified exactly when the payment source holds one proving
   * record of it, a reship exactly when the order, inventory and warehouse sources each do; the milestone says which
   * of the two happened or failed to; and nothing else, the receipt least of all, decides.
   */
  lemma VerdictIsReadOffSources(a: Action, seen: map<Source, seq<Effect>>, id: string, present: bool)
    ensures var v := VerificationFrom(a, seen, id, present);
            && v.RemedyCheck? && v.recordId == id && v.actionId == a.terms.actionId && v.contract == a.contract
            && v.caseId == a.terms.caseId && v.caseRevision == a.terms.caseRevision
            && v.operation == a.terms.operation && v.receiptPresent == present
            && match a.terms.operation
               case Refund =>
                 var proven := ProvenBy(a, seen, PAYMENT);
                 && v.classification == (if proven then RemedyVerified else VerificationFailure)
                 && v.milestone == (if proven then RefundCommittedExact else RefundMissingOrInexact)
               case Reship =>
                 var proven := ProvenBy(a, seen, OMS) && ProvenBy(a, seen, INVENTORY) && ProvenBy(a, seen, WMS);
                 && v.classification == (if proven then RemedyVerified else VerificationFailure)
                 && v.milestone == (if proven then ReplacementCreatedReservedAccepted
                                    else ReplacementMissingOrInexact)
  {
    hide ProvenBy, ExactOne, Matching, Digests;
    forall s ensures s in seen && ExactOne(a.terms, s, Matching(a, seen[s])) <==> ProvenBy(a, seen, s) {
      SourceIsProven(a, seen, s);
    }
    assert RequiredSources(Refund) == [PAYMENT] && RequiredSources(Reship) == [OMS, INVENTORY, WMS];
    assert PAYMENT in RequiredSources(Refund) && OMS in RequiredSources(Reship)
           && INVENTORY in RequiredSources(Reship) && WMS in RequiredSources(Reship);
  }

  /** This source's journal, as the verifier's own reader takes it. */
  ghost predicate ReadsAs(f: EffectFiles, s: Source, effects: seq<Effect>) {
    && s in f.logs && |effects| <= |LinesOf(f.logs[s].journal)|
    && VerifierAccepts(s, LinesOf(f.logs[s].journal), f.logs[s].commits, |effects|)
    && effects == Values(LinesOf(f.logs[s].journal)[..|effects|])
  }

  lemma ReadsCommitted(f: EffectFiles, s: Source, effects: seq<Effect>)
    requires s in f.logs && LogInv(s, f.logs[s]) && ReadsAs(f, s, effects)
    ensures effects == Committed(f, s)
  {
    hide LogInv, VerifierAccepts, AdapterAccepts, CommittedIn;
    JournalReads(s, f.logs[s]);
    VerifierReadsCommitted(s, f.logs[s], |effects|);
  }

  /** `read_committed_effects` on one source of the run directory. */
  method ReadAuthoritative(f: EffectFiles, s: Source) returns (r: Result<seq<Effect>>)
    ensures r.Ok? ==> ReadsAs(f, s, r.value)
    ensures r.Err? ==> forall effects :: !ReadsAs(f, s, effects)
    ensures s in f.logs && LogInv(s, f.logs[s]) ==> r == Ok(Committed(f, s))
  {
    hide LogInv, VerifierAccepts, CommittedIn, Values;
    if s !in f.logs {
      return Err(Control);
    }
    var log := f.logs[s];
    r := ReadCommittedEffects(s, LinesOf(log.journal), log.commits);
    if LogInv(s, log) {
      JournalReads(s, log);
      ReadsCommitted(f, s, r.value);
    }
  }

  lemma OnlyRequiredCount(a: Action, seen: map<Source, seq<Effect>>, all: map<Source, seq<Effect>>, id: string,
                          present: bool)
    requires forall s :: s in RequiredSources(a.terms.operation) ==> s in seen && s in all && all[s] == seen[s]
    ensures VerificationFrom(a, seen, id, present) == VerificationFrom(a, all, id, present)
  {
    hide ExactOne, Matching, Digests, RequiredSources;
    assert VerificationFrom(a, seen, id, present).evidence == VerificationFrom(a, all, id, present).evidence;
  }

  /**
   * `verify_authoritative_postcondition`, over whatever the journals hold. In a run nobody tampered with it always
   * answers, from exactly the committed effects.
   */
  method VerifyAuthoritativePostcondition(a: Action, f: EffectFiles, id: string, receiptPresent: bool)
    returns (r: Result<Verification>, ghost seen: map<Source, seq<Effect>>)
    ensures r.Ok? ==> ValidAction(a) && r.value == VerificationFrom(a, seen, id, receiptPresent)
                      && forall s :: s in RequiredSources(a.terms.operation) ==> s in seen && ReadsAs(f, s, seen[s])
    ensures r.Err? ==> !ValidAction(a) || exists s :: Unreadable(a, f, s)
    ensures ValidAction(a) && LogsInv(f.logs) ==> r == Ok(VerificationFrom(a, ViewOf(f).effects, id, receiptPresent))
  {
    hide LogInv, ReadsAs, CommittedIn, ViewOf, VerificationFrom;
    if !ValidAction(a) {
      return Err(Control), map[];
    }
    var sources := RequiredSources(a.terms.operation);
    var observed: map<Source, seq<Effect>> := map[];
    ViewShows(f);
    for i := 0 to |sources|
      invariant forall j :: 0 <= j < i ==> sources[j] in observed && ReadsAs(f, sources[j], observed[sources[j]])
      invariant LogsInv(f.logs) ==> forall s :: s in observed ==> observed[s] == Committed(f, s)
    {
      var effects := ReadAuthoritative(f, sources[i]);
      if effects.Err? {
        assert Unreadable(a, f, sources[i]);
        seen := observed;
        return Err(effects.error), seen;
      }
      observed := observed[sources[i] := effects.value];
    }
    if LogsInv(f.logs) {
      OnlyRequiredCount(a, observed, ViewOf(f).effects, id, receiptPresent);
    }
    return Ok(VerificationFrom(a, observed, id, receiptPresent)), observed;
  }

  ghost predicate Unreadable(a: Action, f: EffectFiles, s: Source) {
    s in RequiredSources(a.terms.operation) && forall effects :: !ReadsAs(f, s, effects)
  }

  // ---- what the classification means ----

  ghost predicate DistinctActions(effects: seq<Effect>) {
    forall i, j :: 0 <= i < j < |effects| ==> effects[i].actionId != effects[j].actionId
  }

  /** Among effects with distinct action IDs at most one matches, and the search returns it. */
  lemma {:induction false} MatchingIsOne(a: Action, effects: seq<Effect>, i: nat)
    requires DistinctActions(effects) && i < |effects| && effects[i].actionId == a.terms.actionId
    ensures Matching(a, effects) == if Matches(a.terms, a.contract, effects[i]) then [effects[i]] else []
  {
    var rest := effects[1..];
    if i == 0 {
      assert forall k :: 0 <= k < |rest| ==> rest[k] == effects[k + 1];
      MatchingIsNone(a, rest);
    } else {
      assert forall k :: 0 <= k < |rest| ==> rest[k] == effects[k + 1];
      MatchingIsOne(a, rest, i - 1);
    }
  }

  lemma {:induction false} MatchingIsNone(a: Action, effects: seq<Effect>)
    requires forall k :: 0 <= k < |effects| ==> effects[k].actionId != a.terms.actionId
    ensures Matching(a, effects) == []
  {
    if effects != [] {
      MatchingIsNone(a, effects[1..]);
    }
  }

  /** The contract under which this action ID was first reserved is this action's. */
  ghost predicate Owns(events: seq<Event>, a: Action) {
    && ValidAction(a) && FirstReserved(events, a.terms.actionId).Some?
    && ReservedContract(FirstReserved(events, a.terms.actionId).value) == Some(a.contract)
  }

  /** What one source contributes: its committed effect of this action, if any, is the exact one. */
  lemma SourceVerdict(events: seq<Event>, f: EffectFiles, a: Action, s: Source)
    requires s in f.logs && LogInv(s, f.logs[s]) && AllBacked(events, f) && Owns(events, a)
    ensures ExactOne(a.terms, s, Matching(a, Committed(f, s))) <==> HasId(Committed(f, s), a.terms.actionId)
    ensures HasId(Committed(f, s), a.terms.actionId)
            ==> exists n :: ExactEffect(f, a, s, n) && Matching(a, Committed(f, s)) == [EffectOf(a.terms, s, n)]
  {
    hide LogInv, CommittedIn, Matches, Owns, Backed, ExactOne, EffectOf, AsOrdered;
    var effects := Committed(f, s);
    CommittedInOrder(s, f.logs[s]);
    if HasId(effects, a.terms.actionId) {
      var i :| 0 <= i < |effects| && effects[i].actionId == a.terms.actionId;
      assert Backed(events, s, effects[i]);
      MatchingIsOne(a, effects, i);
      BackedIsExact(events, s, effects[i], a);
      assert ExactEffect(f, a, s, i + 1);
    } else {
      MatchingIsNone(a, effects);
      NoneIsNotOne(a.terms, s);
    }
  }

  lemma CommittedInOrder(s: Source, log: EffectLog)
    requires LogInv(s, log)
    ensures DistinctActions(CommittedIn(log))
    ensures forall i :: 0 <= i < |CommittedIn(log)| ==> CommittedIn(log)[i].sequence == i + 1
  {
    var c := CommittedIn(log);
    assert forall i :: 0 <= i < |c| ==> c[i] == log.journal.records[i];
  }

  lemma NoneIsNotOne(t: ActionTerms, s: Source)
    ensures !ExactOne(t, s, [])
  {
  }

  /** The effect this action's contract prescribes is the n-th committed record of the source. */
  predicate ExactEffect(f: EffectFiles, a: Action, s: Source, n: int) {
    1 <= n <= |Committed(f, s)| && Committed(f, s)[n - 1] == EffectOf(a.terms, s, n)
  }

  lemma BackedIsExact(events: seq<Event>, s: Source, e: Effect, a: Action)
    requires Backed(events, s, e) && Owns(events, a) && e.actionId == a.terms.actionId
    ensures e == EffectOf(a.terms, s, e.sequence)
    ensures Matches(a.terms, a.contract, e) && ExactOne(a.terms, s, [e])
  {
    EffectNames(a.terms, s, e.sequence);
  }

  /** The exact effect stands in every required source, and the cited digests are theirs. */
  ghost predicate EvidenceStands(f: EffectFiles, a: Action, evidence: map<Source, seq<Digest>>) {
    forall s :: s in RequiredSources(a.terms.operation) ==> s in evidence && EvidenceAt(f, a, s, evidence[s])
  }

  ghost predicate EvidenceAt(f: EffectFiles, a: Action, s: Source, digests: seq<Digest>) {
    exists n :: ExactEffect(f, a, s, n) && digests == [OfEffect(EffectOf(a.terms, s, n))]
  }

  /**
   * What the verdict is worth. For the action its reservation names, the verifier answers "remedy verified"
   * exactly when every required source holds the action's effect, receipt or no receipt; and then the digests it
   * cites are those of the exact effects the contract prescribes, and the milestone is the operation's own.
   */
  lemma RemedyVerifiedExactly(events: seq<Event>, f: EffectFiles, a: Action, id: string, present: bool)
    requires EffectInv(events, f) && Owns(events, a)
    ensures var v := VerificationFrom(a, ViewOf(f).effects, id, present);
            && (v.classification == RemedyVerified <==> Applied(f, a.terms.operation, a.terms.actionId))
            && (v.classification == RemedyVerified ==> EvidenceStands(f, a, v.evidence))
            && (v.classification == RemedyVerified
                ==> v.milestone == (if a.terms.operation == Refund then RefundCommittedExact
                                    else ReplacementCreatedReservedAccepted))
  {
    VerdictIsReadOffSources(a, ViewOf(f).effects, id, present);
    hide ProvenBy;
    hide Owns, AllBacked, OneActionPerRemedy, ReceiptsBacked, AttemptInv, LogInv, ExactOne, Matching, EffectOf,
         ExactEffect, ViewOf, RequiredSources, HasId, Committed;
    var required, seen := RequiredSources(a.terms.operation), ViewOf(f).effects;
    ViewShows(f);
    forall s | s in required
      ensures ExactOne(a.terms, s, Matching(a, seen[s])) <==> HasId(Committed(f, s), a.terms.actionId)
      ensures HasId(Committed(f, s), a.terms.actionId) ==> EvidenceAt(f, a, s, Digests(Matching(a, seen[s])))
    {
      SourceVerdict(events, f, a, s);
      if HasId(Committed(f, s), a.terms.actionId) {
        var n :| ExactEffect(f, a, s, n) && Matching(a, Committed(f, s)) == [EffectOf(a.terms, s, n)];
        assert Digests(Matching(a, seen[s])) == [OfEffect(EffectOf(a.terms, s, n))];
      }
    }
  }

  /** Committed effects only ever grow. */
  ghost predicate EffectsGrow(f: EffectFiles, g: EffectFiles) {
    forall s :: Committed(f, s) <= Committed(g, s)
  }

  lemma EvidenceSurvives(f: EffectFiles, g: EffectFiles, a: Action, evidence: map<Source, seq<Digest>>)
    requires EvidenceStands(f, a, evidence) && EffectsGrow(f, g)
    ensures EvidenceStands(g, a, evidence)
  {
    hide Committed, EffectOf, RequiredSources;
    forall s | s in RequiredSources(a.terms.operation) ensures EvidenceAt(g, a, s, evidence[s]) {
      assert EvidenceAt(f, a, s, evidence[s]);
      var n :| ExactEffect(f, a, s, n) && evidence[s] == [OfEffect(EffectOf(a.terms, s, n))];
      assert ExactEffect(g, a, s, n);
    }
  }

  /**
   * Receipt completeness. Once a receipt exists for an action, the verifier finds the remedy then and in every
   * later state, whatever has happened to other actions since and whether or not it is shown the receipt.
   */
  lemma ReceiptMeansVerified(events: seq<Event>, f: EffectFiles, later: seq<Event>, g: EffectFiles, a: Action,
                             id: string, present: bool)
    requires EffectInv(events, f) && EffectInv(later, g) && events <= later && EffectsGrow(f, g)
    requires ValidAction(a) && a.terms.actionId in f.receipts && f.receipts[a.terms.actionId].contract == a.contract
    ensures VerificationFrom(a, ViewOf(g).effects, id, present).classification == RemedyVerified
  {
    hide AllBacked, OneActionPerRemedy, AttemptInv, LogsInv, EffectOf, RequiredSources, HasId, Committed,
         VerificationFrom, ViewOf;
    assert ReceiptBacked(events, f, a.terms.actionId, f.receipts[a.terms.actionId]);
    FirstReservedStays(events, later, a.terms.actionId);
    AppliedGrows(f, g, a.terms.operation, a.terms.actionId);
    RemedyVerifiedExactly(later, g, a, id, present);
  }
}
