/**
 * The effect side of a run directory: four source journals, the attempt journal, receipts and quarantine, and
 * the invariant that ties every committed effect to one reservation of the event ledger.
 */
module EffectJournals {
  import opened Results
  import opened Workflow
  import opened Records
  import opened Actions
  import opened Journals
  import opened EffectReaders

  datatype EffectLog = EffectLog(journal: Journal<Effect>, commits: Markers)

  datatype AttemptMarker = AttemptMarker(digest: Digest, sequence: int)

  datatype AttemptLog = AttemptLog(journal: Journal<Attempt>, commits: map<int, AttemptMarker>)

  datatype EffectTail =
    | SourceTail(source: Source, lines: seq<Line<Effect>>)
    | AttemptTail(attemptLines: seq<Line<Attempt>>)

  type Logs = map<Source, EffectLog>

  datatype EffectFiles = EffectFiles(
    logs: Logs,
    attempts: AttemptLog,
    receipts: map<string, Receipt>,
    quarantine: set<EffectTail>)

  // ---- committed records ----

  /** The records with a marker: all, or all but an unmarked last one. */
  function CommittedIn(log: EffectLog): seq<Effect> {
    var records := log.journal.records;
    if records != [] && records[|records| - 1].actionId !in log.commits then records[..|records| - 1] else records
  }

  function Committed(f: EffectFiles, s: Source): seq<Effect> {
    if s in f.logs then CommittedIn(f.logs[s]) else []
  }

  function CommittedAttempts(log: AttemptLog): seq<Attempt> {
    var records := log.journal.records;
    if records != [] && |records| !in log.commits then records[..|records| - 1] else records
  }

  predicate LogTidy(log: EffectLog) {
    log.journal.torn.None? && CommittedIn(log) == log.journal.records
  }

  predicate AttemptsTidy(log: AttemptLog) {
    log.journal.torn.None? && CommittedAttempts(log) == log.journal.records
  }

  // ---- reservations as the adapter looks them up ----

  predicate Reserves(e: Event, actionId: string) {
    && e.body.eventType == ActionAuthorityReserved
    && ActionId in e.body.links && e.body.links[ActionId] == actionId
  }

  /** The digest an event's reservation material carries, if it has that shape. */
  function ReservedContract(e: Event): Option<Digest> {
    if e.body.decision.Reservation? then Some(e.body.decision.contract) else None
  }

  function FirstReserved(events: seq<Event>, actionId: string): Option<Event> {
    if events == [] then None
    else
      var earlier := FirstReserved(events[..|events| - 1], actionId);
      if earlier.Some? then earlier
      else if Reserves(events[|events| - 1], actionId) then Some(events[|events| - 1])
      else None
  }

  /** `_reservation`: exactly one event reserves this action ID, and it carries this contract. */
  ghost predicate ReservedExactly(events: seq<Event>, a: Action) {
    exists i :: 0 <= i < |events| && Reserves(events[i], a.terms.actionId)
                && ReservedContract(events[i]) == Some(a.contract)
                && forall j :: 0 <= j < |events| && Reserves(events[j], a.terms.actionId) ==> j == i
  }

  /** The first reservation of an ID stays the first as the ledger grows. */
  lemma {:induction false} FirstReservedStays(events: seq<Event>, more: seq<Event>, actionId: string)
    requires events <= more && FirstReserved(events, actionId).Some?
    ensures FirstReserved(more, actionId) == FirstReserved(events, actionId)
  {
    if |events| < |more| {
      FirstReservedStays(events, more[..|more| - 1], actionId);
    } else {
      assert events == more;
    }
  }

  lemma {:induction false} FirstReservedIsOne(events: seq<Event>, actionId: string)
    ensures FirstReserved(events, actionId).Some?
            ==> exists i ::
                  && 0 <= i < |events| && events[i] == FirstReserved(events, actionId).value
                  && Reserves(events[i], actionId)
    ensures FirstReserved(events, actionId).None? ==> forall i :: 0 <= i < |events| ==> !Reserves(events[i], actionId)
  {
    if events != [] {
      var prefix := events[..|events| - 1];
      FirstReservedIsOne(prefix, actionId);
      if FirstReserved(prefix, actionId).Some? {
        var i :| 0 <= i < |prefix| && prefix[i] == FirstReserved(prefix, actionId).value
          && Reserves(prefix[i], actionId);
        assert events[i] == prefix[i];
      } else {
        assert forall i :: 0 <= i < |prefix| ==> events[i] == prefix[i];
      }
    }
  }

  lemma ReservedExactlyIsFirst(events: seq<Event>, a: Action)
    requires ReservedExactly(events, a)
    ensures FirstReserved(events, a.terms.actionId).Some?
    ensures ReservedContract(FirstReserved(events, a.terms.actionId).value) == Some(a.contract)
  {
    FirstReservedIsOne(events, a.terms.actionId);
  }

  // ---- effects ----

  /** What follows the first ten characters of an action ID. */
  function IdSuffix(id: string): string {
    if |id| <= 10 then "" else id[10..]
  }

  /** The record `_effect` builds for one source. */
  function EffectOf(t: ActionTerms, s: Source, sequence: int): Effect {
    var blank := Effect(s, t.actionId, OfContract(t), t.caseId, t.caseRevision, t.businessKey, sequence,
                        Some(t.quantity), None, None, false, false, None, false, false, false, false);
    match s
    case PAYMENT => blank.(amountCents := Some(t.amountCents), currency := Some(t.currency), refundCommitted := true)
    case OMS =>
      var order := "S2-ORDER-REPLACEMENT-" + IdSuffix(t.actionId);
      blank.(replacementCreated := true, replacementOrderId := Some(order))
    case INVENTORY => blank.(inventoryReserved := true)
    case WMS => blank.(wmsAccepted := true)
  }

  /** A record of this source that shows, field by field, what the terms call for and nothing else. */
  predicate ShowsTerms(e: Effect, t: ActionTerms, s: Source, position: int) {
    && e.source == s && e.sequence == position && e.actionId == t.actionId && e.contract == OfContract(t)
    && e.caseId == t.caseId && e.caseRevision == t.caseRevision && e.businessKey == t.businessKey
    && e.quantity == Some(t.quantity) && !e.stale && !e.conflicting
    && e.amountCents == (if s == PAYMENT then Some(t.amountCents) else None)
    && e.currency == (if s == PAYMENT then Some(t.currency) else None)
    && (e.replacementOrderId.Some? <==> s == OMS)
    && (e.refundCommitted <==> s == PAYMENT) && (e.replacementCreated <==> s == OMS)
    && (e.inventoryReserved <==> s == INVENTORY) && (e.wmsAccepted <==> s == WMS)
  }

  lemma EffectShowsTerms(t: ActionTerms, s: Source, position: int)
    ensures ShowsTerms(EffectOf(t, s, position), t, s, position)
  {
  }

  /** An effect somebody's reservation accounts for, down to the last field. */
  ghost predicate Backed(events: seq<Event>, s: Source, e: Effect) {
    && e.contract.OfContract? && e == EffectOf(e.contract.terms, s, e.sequence)
    && s in RequiredSources(e.contract.terms.operation)
    && FirstReserved(events, e.actionId).Some?
    && ReservedContract(FirstReserved(events, e.actionId).value) == Some(e.contract)
  }

  ghost predicate LogInv(s: Source, log: EffectLog) {
    var records, committed := log.journal.records, CommittedIn(log);
    && (forall i :: 0 <= i < |records| ==> records[i].source == s && records[i].sequence == i + 1)
    && (forall i, j :: 0 <= i < j < |records| ==> records[i].actionId != records[j].actionId)
    && (forall i :: 0 <= i < |committed| ==> MarkerBound(s, log.commits, committed[i], i + 1))
    && (forall id :: id in log.commits ==> HasId(committed, id))
    && (log.journal.torn.Some? ==> committed == records)
  }

  predicate HasId(effects: seq<Effect>, id: string) {
    exists i :: 0 <= i < |effects| && effects[i].actionId == id
  }

  predicate AttemptBound(commits: map<int, AttemptMarker>, e: Attempt, position: int) {
    position in commits && commits[position] == AttemptMarker(OfAttempt(e), position)
  }

  ghost predicate AttemptInv(log: AttemptLog) {
    var records, committed := log.journal.records, CommittedAttempts(log);
    && (forall i :: 0 <= i < |records| ==> records[i].sequence == i + 1)
    && (forall i :: 0 <= i < |committed| ==> AttemptBound(log.commits, committed[i], i + 1))
    && log.commits.Keys == UpTo(|committed|)
    && (log.journal.torn.Some? ==> committed == records)
  }

  predicate SameRemedy(e: Effect, caseId: string, businessKey: string) {
    e.caseId == caseId && e.businessKey == businessKey
  }

  /** One case's business key is served by one action, across all four journals. */
  ghost predicate OneActionPerRemedy(f: EffectFiles) {
    forall s, t, i, j :: 0 <= i < |Committed(f, s)| && 0 <= j < |Committed(f, t)|
      && SameRemedy(Committed(f, s)[i], Committed(f, t)[j].caseId, Committed(f, t)[j].businessKey)
      ==> Committed(f, s)[i].actionId == Committed(f, t)[j].actionId
  }

  ghost predicate AllBacked(events: seq<Event>, f: EffectFiles) {
    forall s, i :: 0 <= i < |Committed(f, s)| ==> Backed(events, s, Committed(f, s)[i])
  }

  ghost predicate Applied(f: EffectFiles, operation: Operation, id: string) {
    forall s :: s in RequiredSources(operation) ==> HasId(Committed(f, s), id)
  }

  /** A receipt stands only over a fully applied action whose reservation it names. */
  ghost predicate ReceiptBacked(events: seq<Event>, f: EffectFiles, id: string, r: Receipt) {
    && r.actionId == id && r.contract.OfContract? && r.operation == r.contract.terms.operation
    && FirstReserved(events, id).Some?
    && ReservedContract(FirstReserved(events, id).value) == Some(r.contract)
    && Applied(f, r.operation, id)
  }

  ghost predicate ReceiptsBacked(events: seq<Event>, f: EffectFiles) {
    forall id :: id in f.receipts ==> ReceiptBacked(events, f, id, f.receipts[id])
  }

  ghost predicate LogsInv(logs: Logs) {
    forall s :: s in logs && LogInv(s, logs[s])
  }

  /** What every adapter call keeps, whatever write it dies at. `events` is the committed ledger. */
  ghost predicate EffectInv(events: seq<Event>, f: EffectFiles) {
    && LogsInv(f.logs)
    && AttemptInv(f.attempts)
    && AllBacked(events, f)
    && OneActionPerRemedy(f)
    && ReceiptsBacked(events, f)
  }

  /** Same committed effects and receipts; journals may differ in tails, attempts and quarantine. */
  ghost predicate SameEffects(f: EffectFiles, g: EffectFiles) {
    && (forall s :: Committed(g, s) == Committed(f, s))
    && g.receipts == f.receipts
  }

  lemma SameEffectsKeep(events: seq<Event>, f: EffectFiles, g: EffectFiles)
    requires EffectInv(events, f) && SameEffects(f, g) && LogsInv(g.logs) && AttemptInv(g.attempts)
    ensures EffectInv(events, g)
  {
    hide LogInv, Backed, AttemptInv, CommittedIn, Committed;
  }

  /** The ledger may grow under the effects: nothing they rest on can be lost. */
  lemma LedgerGrowthKeeps(events: seq<Event>, more: seq<Event>, f: EffectFiles)
    requires EffectInv(events, f) && events <= more
    ensures EffectInv(more, f)
  {
    hide LogInv, AttemptInv, CommittedIn, Committed, EffectOf;
    forall s, i | 0 <= i < |Committed(f, s)| ensures Backed(more, s, Committed(f, s)[i]) {
      assert Backed(events, s, Committed(f, s)[i]);
      FirstReservedStays(events, more, Committed(f, s)[i].actionId);
    }
    forall id | id in f.receipts ensures ReceiptBacked(more, f, id, f.receipts[id]) {
      assert ReceiptBacked(events, f, id, f.receipts[id]);
      FirstReservedStays(events, more, id);
    }
  }

  // ---- single-journal steps ----

  lemma TornKeeps(s: Source, log: EffectLog, tear: Option<string>)
    requires LogInv(s, log) && LogTidy(log)
    ensures var g := log.(journal := log.journal.(torn := tear));
            LogInv(s, g) && CommittedIn(g) == CommittedIn(log)
  {
  }

  lemma UnmarkedKeeps(s: Source, log: EffectLog, e: Effect)
    requires LogInv(s, log) && LogTidy(log)
    requires e.source == s && e.sequence == |log.journal.records| + 1 && !HasId(log.journal.records, e.actionId)
    ensures var g := log.(journal := Journal(log.journal.records + [e], None));
            LogInv(s, g) && CommittedIn(g) == CommittedIn(log)
  {
    hide MarkerBound;
    var records := log.journal.records;
    assert (records + [e])[..|records|] == records;
    assert e.actionId !in log.commits;
    hide HasId;
    NextInOrder(s, records, e);
  }

  /** One more record of this source keeps the numbering and the distinct IDs. */
  lemma NextInOrder(s: Source, records: seq<Effect>, e: Effect)
    requires forall i :: 0 <= i < |records| ==> records[i].source == s && records[i].sequence == i + 1
    requires forall i, j :: 0 <= i < j < |records| ==> records[i].actionId != records[j].actionId
    requires e.source == s && e.sequence == |records| + 1 && !HasId(records, e.actionId)
    ensures var more := records + [e];
            && (forall i :: 0 <= i < |more| ==> more[i].source == s && more[i].sequence == i + 1)
            && (forall i, j :: 0 <= i < j < |more| ==> more[i].actionId != more[j].actionId)
  {
  }

  lemma MarkedKeeps(s: Source, log: EffectLog, e: Effect)
    requires LogInv(s, log) && LogTidy(log)
    requires e.source == s && e.sequence == |log.journal.records| + 1 && !HasId(log.journal.records, e.actionId)
    ensures e.actionId !in log.commits
    ensures var g := EffectLog(Journal(log.journal.records + [e], None),
                               log.commits[e.actionId := MarkerFor(s, e, e.sequence)]);
            LogInv(s, g) && LogTidy(g) && CommittedIn(g) == CommittedIn(log) + [e]
  {
    hide MarkerFor;
    var commits := log.commits[e.actionId := MarkerFor(s, e, e.sequence)];
    var c := CommittedIn(log);
    NextInOrder(s, c, e);
    NextIsBound(s, c, log.commits, e);
    hide MarkerBound;
    forall id | id in commits ensures HasId(c + [e], id) {
      MarkedIdStays(c, e, id);
    }
  }

  /** A marker written for a new record leaves the earlier bindings and binds the record. */
  lemma NextIsBound(s: Source, c: seq<Effect>, commits: Markers, e: Effect)
    requires forall i :: 0 <= i < |c| ==> MarkerBound(s, commits, c[i], i + 1)
    requires e.sequence == |c| + 1 && !HasId(c, e.actionId)
    ensures var after := commits[e.actionId := MarkerFor(s, e, e.sequence)];
            forall i :: 0 <= i < |c + [e]| ==> MarkerBound(s, after, (c + [e])[i], i + 1)
  {
    var after := commits[e.actionId := MarkerFor(s, e, e.sequence)];
    forall i | 0 <= i < |c + [e]| ensures MarkerBound(s, after, (c + [e])[i], i + 1) {
      if i < |c| {
        assert MarkerBound(s, commits, c[i], i + 1) && c[i].actionId != e.actionId;
      }
    }
  }

  lemma MarkedIdStays(c: seq<Effect>, e: Effect, id: string)
    ensures HasId(c, id) || id == e.actionId ==> HasId(c + [e], id)
  {
    assert (c + [e])[|c|] == e;
    if i :| 0 <= i < |c| && c[i].actionId == id {
      assert (c + [e])[i].actionId == id;
    }
  }

  lemma CutKeeps(s: Source, log: EffectLog)
    requires LogInv(s, log)
    ensures var g := log.(journal := Journal(CommittedIn(log), None));
            LogInv(s, g) && LogTidy(g) && CommittedIn(g) == CommittedIn(log)
  {
    var g := log.(journal := Journal(CommittedIn(log), None));
    var c := CommittedIn(log);
    if c != [] {
      assert MarkerBound(s, log.commits, c[|c| - 1], |c|);
    }
  }

  // ---- whole-directory steps ----

  lemma LogReplaced(events: seq<Event>, f: EffectFiles, s: Source, log: EffectLog)
    requires EffectInv(events, f) && LogInv(s, log) && CommittedIn(log) == CommittedIn(f.logs[s])
    ensures var g := f.(logs := f.logs[s := log]);
            EffectInv(events, g) && SameEffects(f, g)
  {
    hide LogInv, Backed, AttemptInv, CommittedIn;
    var g := f.(logs := f.logs[s := log]);
    assert forall t :: Committed(g, t) == Committed(f, t);
    SameEffectsKeep(events, f, g);
  }

  /** No committed effect of another action already serves this action's case and business key. */
  ghost predicate NoForeignRemedy(f: EffectFiles, t: ActionTerms) {
    forall s, i :: 0 <= i < |Committed(f, s)| && SameRemedy(Committed(f, s)[i], t.caseId, t.businessKey)
      ==> Committed(f, s)[i].actionId == t.actionId
  }

  lemma EffectCommitted(events: seq<Event>, f: EffectFiles, s: Source, log: EffectLog, t: ActionTerms, sequence: int)
    requires EffectInv(events, f) && LogInv(s, log)
    requires CommittedIn(log) == Committed(f, s) + [EffectOf(t, s, sequence)]
    requires Backed(events, s, EffectOf(t, s, sequence)) && NoForeignRemedy(f, t)
    ensures var g := f.(logs := f.logs[s := log]);
            EffectInv(events, g) && NoForeignRemedy(g, t)
            && (forall u :: Committed(g, u)
                            == if u == s then Committed(f, s) + [EffectOf(t, s, sequence)] else Committed(f, u))
  {
    hide LogInv, Backed, AttemptInv, CommittedIn, Committed, EffectOf;
    var g := f.(logs := f.logs[s := log]);
    var e := EffectOf(t, s, sequence);
    EffectNames(t, s, sequence);
    ReplacedView(f, s, log);
    assert forall u :: Committed(g, u) == if u == s then Committed(f, s) + [e] else Committed(f, u);
    forall u, i | 0 <= i < |Committed(g, u)| ensures Backed(events, u, Committed(g, u)[i]) {
      if i < |Committed(f, u)| {
        assert Backed(events, u, Committed(f, u)[i]);
      }
    }
    forall id | id in g.receipts ensures ReceiptBacked(events, g, id, g.receipts[id]) {
      assert ReceiptBacked(events, f, id, f.receipts[id]);
      AppliedGrows(f, g, f.receipts[id].operation, id);
    }
  }

  lemma EffectNames(t: ActionTerms, s: Source, sequence: int)
    ensures var e := EffectOf(t, s, sequence);
            e.caseId == t.caseId && e.businessKey == t.businessKey && e.actionId == t.actionId && e.source == s
            && e.contract == OfContract(t) && e.sequence == sequence && e.caseRevision == t.caseRevision
            && !e.stale && !e.conflicting
  {
  }

  lemma ReplacedView(f: EffectFiles, s: Source, log: EffectLog)
    requires forall u :: u in f.logs
    ensures var g := f.(logs := f.logs[s := log]);
            forall u :: Committed(g, u) == if u == s then CommittedIn(log) else Committed(f, u)
  {
    hide CommittedIn;
  }

  lemma AppliedGrows(f: EffectFiles, g: EffectFiles, operation: Operation, id: string)
    requires Applied(f, operation, id) && forall s :: Committed(f, s) <= Committed(g, s)
    ensures Applied(g, operation, id)
  {
    hide Committed;
    forall s | s in RequiredSources(operation) ensures HasId(Committed(g, s), id) {
      assert HasId(Committed(f, s), id);
      var i :| 0 <= i < |Committed(f, s)| && Committed(f, s)[i].actionId == id;
      assert Committed(g, s)[i].actionId == id;
    }
  }

  lemma ReceiptIssued(events: seq<Event>, f: EffectFiles, r: Receipt)
    requires EffectInv(events, f) && ReceiptBacked(events, f, r.actionId, r)
    ensures EffectInv(events, f.(receipts := f.receipts[r.actionId := r]))
  {
    hide LogInv, Backed, AttemptInv, CommittedIn, EffectOf;
    var g := f.(receipts := f.receipts[r.actionId := r]);
    assert forall s :: Committed(g, s) == Committed(f, s);
    hide Committed;
    forall id | id in g.receipts ensures ReceiptBacked(events, g, id, g.receipts[id]) {
      if id != r.actionId {
        assert ReceiptBacked(events, f, id, f.receipts[id]);
        AppliedGrows(f, g, f.receipts[id].operation, id);
      } else {
        AppliedGrows(f, g, r.operation, id);
      }
    }
  }

  // ---- what the readers see of a journal that appends wrote ----

  lemma {:induction false} NoOpenInRecs<T>(lines: seq<Line<T>>, n: nat)
    requires n <= |lines| && (forall i :: 0 <= i < n ==> lines[i].Rec?) && (n < |lines| ==> lines[n].Open?)
    ensures FirstOpen(lines) == n
  {
    if n > 0 {
      assert forall i :: 0 <= i < |lines| - 1 ==> lines[1..][i] == lines[i + 1];
      NoOpenInRecs(lines[1..], n - 1);
    }
  }

  lemma {:induction false} ValuesOfRecs(lines: seq<Line<Effect>>, values: seq<Effect>)
    requires |lines| == |values| && forall i :: 0 <= i < |lines| ==> lines[i] == Rec(values[i])
    ensures Values(lines) == values
  {
    if lines != [] {
      ValuesOfRecs(lines[..|lines| - 1], values[..|values| - 1]);
      assert values == values[..|values| - 1] + [values[|values| - 1]];
    }
  }

  /** Both readers accept such a journal, and read its committed records. */
  lemma JournalReads(s: Source, log: EffectLog)
    requires LogInv(s, log)
    ensures var lines, c := LinesOf(log.journal), CommittedIn(log);
            && |c| <= |lines| && Values(lines[..|c|]) == c
            && AdapterAccepts(s, lines, log.commits, |c|) && VerifierAccepts(s, lines, log.commits, |c|)
            && (lines[|c|..] == [] <==> LogTidy(log))
  {
    var lines, c, n := LinesOf(log.journal), CommittedIn(log), |log.journal.records|;
    NoOpenInRecs(lines, n);
    ValuesOfRecs(lines[..|c|], c);
    JournalSplits(s, log);
    ReadersAgreeOnAppendedJournals(s, lines, log.commits, |c|);
  }

  /** The pieces of such a journal before its torn one. */
  lemma HeadOfLines(s: Source, log: EffectLog)
    requires LogInv(s, log)
    ensures var records := log.journal.records;
            var head := LinesOf(log.journal)[..|records|];
            head == Recs(records) && DistinctIds(head) && forall i :: 0 <= i < |records| ==> Fits(s, head[i])
  {
  }

  lemma MarkedIds(s: Source, log: EffectLog)
    requires LogInv(s, log)
    ensures log.commits.Keys == IdsOf(Recs(CommittedIn(log)))
  {
    var c := CommittedIn(log);
    forall id | id in log.commits ensures id in IdsOf(Recs(c)) {
      assert HasId(c, id);
      var i :| 0 <= i < |c| && c[i].actionId == id;
      assert Recs(c)[i].value.actionId == id;
    }
    forall id | id in IdsOf(Recs(c)) ensures id in log.commits {
      var i :| 0 <= i < |c| && Recs(c)[i].value.actionId == id;
      assert MarkerBound(s, log.commits, c[i], i + 1);
    }
  }

  lemma MarkedPrefix(s: Source, log: EffectLog)
    requires LogInv(s, log) && log.commits.Keys == IdsOf(Recs(CommittedIn(log)))
    ensures CommittedPrefix(s, Recs(log.journal.records), log.commits, |CommittedIn(log)|)
  {
    hide IdsOf, MarkerFor;
    var lines, c := Recs(log.journal.records), CommittedIn(log);
    assert lines[..|c|] == Recs(c);
    assert forall i :: 0 <= i < |c| ==> c[i] == log.journal.records[i];
  }

  lemma JournalSplits(s: Source, log: EffectLog)
    requires LogInv(s, log) && FirstOpen(LinesOf(log.journal)) == |log.journal.records|
    ensures AdapterAccepts(s, LinesOf(log.journal), log.commits, |CommittedIn(log)|)
  {
    hide LogInv, LinesOf, CommittedIn, DistinctIds, CommittedPrefix, Fits;
    HeadOfLines(s, log);
    MarkedIds(s, log);
    MarkedPrefix(s, log);
    var lines, n := LinesOf(log.journal), |log.journal.records|;
    FirstOpenBound(lines);
    assert forall i :: 0 <= i < n ==> lines[..n][i] == lines[i];
  }

  /** The adapter's reader is determined on them. */
  lemma AdapterReadsCommitted(s: Source, log: EffectLog, n: nat)
    requires LogInv(s, log) && AdapterAccepts(s, LinesOf(log.journal), log.commits, n)
    ensures n == |CommittedIn(log)|
  {
    JournalReads(s, log);
    var lines := LinesOf(log.journal);
    FirstOpenBound(lines);
    AcceptedLengthIsUnique(s, lines[..FirstOpen(lines)], log.commits, n, |CommittedIn(log)|);
  }

  lemma VerifierReadsCommitted(s: Source, log: EffectLog, n: nat)
    requires LogInv(s, log) && VerifierAccepts(s, LinesOf(log.journal), log.commits, n)
    ensures n == |CommittedIn(log)|
  {
    JournalReads(s, log);
    AcceptedLengthIsUnique(s, LinesOf(log.journal), log.commits, n, |CommittedIn(log)|);
  }

  // ---- exactly once, read off the invariant ----

  /** At most one committed effect per action and source, and it is the one its contract prescribes. */
  lemma EffectIsUniqueAndExact(events: seq<Event>, f: EffectFiles, s: Source, i: nat, j: nat)
    requires EffectInv(events, f) && i < |Committed(f, s)| && j < |Committed(f, s)|
    requires Committed(f, s)[i].actionId == Committed(f, s)[j].actionId
    ensures i == j
    ensures Committed(f, s)[i] == EffectOf(Committed(f, s)[i].contract.terms, s, i + 1)
  {
    assert LogInv(s, f.logs[s]);
    assert Backed(events, s, Committed(f, s)[i]);
  }

  /** Two effects under one action ID, in whichever journals, stem from one contract. */
  lemma OneContractPerAction(events: seq<Event>, f: EffectFiles, s: Source, t: Source, i: nat, j: nat)
    requires EffectInv(events, f) && i < |Committed(f, s)| && j < |Committed(f, t)|
    requires Committed(f, s)[i].actionId == Committed(f, t)[j].actionId
    ensures Committed(f, s)[i].contract == Committed(f, t)[j].contract
  {
    assert Backed(events, s, Committed(f, s)[i]) && Backed(events, t, Committed(f, t)[j]);
  }
}
