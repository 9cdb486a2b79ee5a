/** The local simulated adapter: recover suffixes, reconcile, and only then write, one durable step at a time. */
module Adapter {
  import opened Results
  import opened Records
  import opened Actions
  import opened Journals
  import opened EffectReaders
  import opened EffectJournals
  import opened AttemptJournals
  import opened EffectScripts
  import Ledger
  import LedgerInvariant
  import Workspace

  // ---- values the methods move between ----

  ghost predicate AllTidy(f: EffectFiles) {
    AttemptsTidy(f.attempts) && forall s :: s in f.logs ==> LogTidy(f.logs[s])
  }

  /** Only tails went, into quarantine. */
  ghost predicate Kept(f: EffectFiles, g: EffectFiles) {
    ViewOf(g) == ViewOf(f) && f.quarantine <= g.quarantine
  }

  function SourceSuffix(s: Source, log: EffectLog): EffectTail {
    var lines := LinesOf(log.journal);
    SourceTail(s, if |CommittedIn(log)| <= |lines| then lines[|CommittedIn(log)|..] else [])
  }

  function AttemptSuffix(log: AttemptLog): EffectTail {
    var lines := LinesOf(log.journal);
    AttemptTail(if |CommittedAttempts(log)| <= |lines| then lines[|CommittedAttempts(log)|..] else [])
  }

  predicate BlockedAt(f: EffectFiles, s: Source) {
    s in f.logs && !LogTidy(f.logs[s]) && SourceSuffix(s, f.logs[s]) in f.quarantine
  }

  predicate AttemptsBlocked(f: EffectFiles) {
    !AttemptsTidy(f.attempts) && AttemptSuffix(f.attempts) in f.quarantine
  }

  /** A suffix still on disk whose quarantine name is taken: recovery refuses until somebody intervenes. */
  ghost predicate Blocked(f: EffectFiles) {
    AttemptsBlocked(f) || exists s :: BlockedAt(f, s)
  }

  /** No journal was cut before what was cut off it was in quarantine. */
  ghost predicate Safeguarded(f: EffectFiles, g: EffectFiles) {
    && (g.attempts != f.attempts ==> AttemptSuffix(f.attempts) in g.quarantine)
    && (forall s :: s in f.logs && s in g.logs && g.logs[s] != f.logs[s]
          ==> SourceSuffix(s, f.logs[s]) in g.quarantine)
  }

  lemma SafeguardedNext(f: EffectFiles, g: EffectFiles, h: EffectFiles, i: nat)
    requires Safeguarded(f, g) && RecoveredSoFar(f, g, i) && i < 4
    requires Kept(g, h) && h.attempts == g.attempts
    requires var s := ALL_SOURCES[i];
             && (forall t :: t in h.logs && (t == s || h.logs[t] == g.logs[t]))
             && (h.logs[s] != g.logs[s] ==> SourceSuffix(s, g.logs[s]) in h.quarantine)
    ensures Safeguarded(f, h)
  {
    hide ViewOf, AttemptsTidy, LogTidy, AttemptSuffix, SourceSuffix;
    SourcesDiffer(i);
  }

  /** Suffix recovery under way: the attempt journal and the first i sources are done, the others as they were. */
  ghost predicate RecoveredSoFar(f: EffectFiles, g: EffectFiles, i: nat) {
    && Kept(f, g) && AttemptsTidy(g.attempts) && i <= 4
    && (forall s :: s in f.logs && s in g.logs)
    && (forall s :: s in ALL_SOURCES[..i] ==> LogTidy(g.logs[s]))
    && (forall s :: s !in ALL_SOURCES[..i] ==> g.logs[s] == f.logs[s])
    && (forall tail :: tail in g.quarantine && tail !in f.quarantine
          ==> tail.AttemptTail? || tail.source in ALL_SOURCES[..i])
  }

  lemma RecoveredNext(f: EffectFiles, g: EffectFiles, h: EffectFiles, i: nat)
    requires RecoveredSoFar(f, g, i) && i < 4
    requires var s := ALL_SOURCES[i];
             && Kept(g, h) && h.attempts == g.attempts
             && (forall t :: t in h.logs && (t == s || h.logs[t] == g.logs[t]))
             && LogTidy(h.logs[s]) && h.quarantine <= g.quarantine + {SourceSuffix(s, g.logs[s])}
    ensures RecoveredSoFar(f, h, i + 1)
  {
    hide ViewOf, AttemptsTidy, LogTidy;
    assert ALL_SOURCES[..i + 1] == ALL_SOURCES[..i] + [ALL_SOURCES[i]];
  }

  lemma RecoveryStarts(f: EffectFiles, g: EffectFiles)
    requires Kept(f, g) && g.logs == f.logs && AttemptsTidy(g.attempts) && forall s :: s in f.logs
    requires g.quarantine <= f.quarantine + {AttemptSuffix(f.attempts)}
    ensures RecoveredSoFar(f, g, 0)
  {
    hide ViewOf, AttemptsTidy, LogTidy;
  }

  lemma SoFarKept(f: EffectFiles, g: EffectFiles, h: EffectFiles, i: nat)
    requires RecoveredSoFar(f, g, i) && Kept(g, h)
    ensures Kept(f, h)
  {
    hide ViewOf, AttemptsTidy, LogTidy;
  }

  lemma BlockedFromStart(f: EffectFiles, g: EffectFiles, i: nat)
    requires RecoveredSoFar(f, g, i) && i < 4 && BlockedAt(g, ALL_SOURCES[i])
    ensures Blocked(f)
  {
    hide ViewOf, AttemptsTidy, LogTidy;
    SourcesDiffer(i);
    assert BlockedAt(f, ALL_SOURCES[i]);
  }

  lemma RecoveredAll(f: EffectFiles, g: EffectFiles)
    requires RecoveredSoFar(f, g, 4)
    ensures AllTidy(g) && Kept(f, g)
  {
    hide ViewOf, AttemptsTidy, LogTidy;
    forall s | s in g.logs ensures LogTidy(g.logs[s]) {
      SourceListed(s);
    }
  }

  function Quarantined(f: EffectFiles, tail: EffectTail): EffectFiles {
    f.(quarantine := f.quarantine + {tail})
  }

  function WithLog(f: EffectFiles, s: Source, log: EffectLog): EffectFiles {
    f.(logs := f.logs[s := log])
  }

  lemma QuarantineKeepsEffects(events: seq<Event>, f: EffectFiles, tail: EffectTail)
    requires EffectInv(events, f)
    ensures EffectInv(events, Quarantined(f, tail)) && Kept(f, Quarantined(f, tail))
  {
    hide LogInv, AttemptInv, Backed, CommittedIn, CommittedAttempts;
    SameEffectsKeep(events, f, Quarantined(f, tail));
  }

  lemma AttemptTailCut(events: seq<Event>, f: EffectFiles)
    requires EffectInv(events, f)
    ensures var g := f.(attempts := f.attempts.(journal := Journal(CommittedAttempts(f.attempts), None)));
            EffectInv(events, g) && Kept(f, g) && AttemptsTidy(g.attempts)
  {
    hide LogInv, AttemptInv, Backed, CommittedIn, CommittedAttempts, LogsInv, AllBacked, OneActionPerRemedy,
         ReceiptsBacked;
    AttemptCutKeeps(f.attempts);
    AttemptsReplaced(events, f, f.attempts.(journal := Journal(CommittedAttempts(f.attempts), None)));
  }

  lemma SourceTailCut(events: seq<Event>, f: EffectFiles, s: Source)
    requires EffectInv(events, f) && s in f.logs
    ensures var log := f.logs[s].(journal := Journal(Committed(f, s), None));
            EffectInv(events, WithLog(f, s, log)) && Kept(f, WithLog(f, s, log)) && LogTidy(log)
  {
    hide LogInv, AttemptInv, Backed, CommittedIn, CommittedAttempts, AllBacked, OneActionPerRemedy, ReceiptsBacked;
    var log := f.logs[s].(journal := Journal(Committed(f, s), None));
    CutKeeps(s, f.logs[s]);
    LogReplaced(events, f, s, log);
    SameView(f, WithLog(f, s, log));
  }

  lemma SameView(f: EffectFiles, g: EffectFiles)
    requires SameEffects(f, g) && CommittedAttempts(g.attempts) == CommittedAttempts(f.attempts)
    ensures ViewOf(g) == ViewOf(f)
  {
    hide Committed, CommittedAttempts;
  }

  // ---- one durable step, cut or whole ----

  function AttemptTorn(f: EffectFiles, tear: Option<string>): EffectFiles {
    f.(attempts := f.attempts.(journal := f.attempts.journal.(torn := tear)))
  }

  function AttemptAppended(f: EffectFiles, e: Attempt): EffectFiles {
    f.(attempts := f.attempts.(journal := Journal(f.attempts.journal.records + [e], None)))
  }

  function AttemptCommitted(f: EffectFiles, e: Attempt): EffectFiles {
    f.(attempts := AttemptMarked(f.attempts, e))
  }

  function EffectTorn(f: EffectFiles, s: Source, tear: Option<string>): EffectFiles
    requires s in f.logs
  {
    WithLog(f, s, f.logs[s].(journal := f.logs[s].journal.(torn := tear)))
  }

  function EffectAppended(f: EffectFiles, s: Source, e: Effect): EffectFiles
    requires s in f.logs
  {
    WithLog(f, s, f.logs[s].(journal := Journal(f.logs[s].journal.records + [e], None)))
  }

  function EffectMarked(f: EffectFiles, s: Source, e: Effect): EffectFiles
    requires s in f.logs
  {
    WithLog(f, s, EffectLog(Journal(f.logs[s].journal.records + [e], None),
                            f.logs[s].commits[e.actionId := MarkerFor(s, e, e.sequence)]))
  }

  function NextAttempt(f: EffectFiles, a: Action, status: AttemptStatus, reconciled: bool): Attempt {
    AttemptOf(a, |CommittedAttempts(f.attempts)| + 1, status, reconciled)
  }

  lemma NoteCut(events: seq<Event>, f: EffectFiles, e: Attempt, tear: Option<string>)
    requires EffectInv(events, f) && AllTidy(f) && e.sequence == |CommittedAttempts(f.attempts)| + 1
    ensures EffectInv(events, AttemptTorn(f, tear)) && ViewOf(AttemptTorn(f, tear)) == ViewOf(f)
    ensures EffectInv(events, AttemptAppended(f, e)) && ViewOf(AttemptAppended(f, e)) == ViewOf(f)
    ensures e.sequence !in f.attempts.commits
  {
    hide LogInv, AttemptInv, Backed, CommittedIn, CommittedAttempts, AllBacked, OneActionPerRemedy, ReceiptsBacked,
         LogTidy;
    AttemptTornKeeps(f.attempts, tear);
    AttemptUnmarkedKeeps(f.attempts, e);
    AttemptsReplaced(events, f, AttemptTorn(f, tear).attempts);
    AttemptsReplaced(events, f, AttemptAppended(f, e).attempts);
    SameView(f, AttemptTorn(f, tear));
    SameView(f, AttemptAppended(f, e));
  }

  lemma NoteDone(events: seq<Event>, f: EffectFiles, a: Action, status: AttemptStatus, reconciled: bool)
    requires EffectInv(events, f) && AllTidy(f)
    ensures var g := AttemptCommitted(f, NextAttempt(f, a, status, reconciled));
            && EffectInv(events, g) && AllTidy(g) && g.logs == f.logs
            && ViewOf(g) == DoStep(ViewOf(f), a, Note(status, reconciled))
  {
    hide LogInv, AttemptInv, Backed, CommittedIn, CommittedAttempts, AllBacked, OneActionPerRemedy, ReceiptsBacked,
         LogTidy;
    var e := NextAttempt(f, a, status, reconciled);
    AttemptMarkedKeeps(f.attempts, e);
    AttemptsReplaced(events, f, AttemptMarked(f.attempts, e));
    NoteShows(f, AttemptCommitted(f, e), a, status, reconciled);
  }

  lemma NoteShows(f: EffectFiles, g: EffectFiles, a: Action, status: AttemptStatus, reconciled: bool)
    requires g.logs == f.logs && g.receipts == f.receipts
    requires CommittedAttempts(g.attempts) == CommittedAttempts(f.attempts) + [NextAttempt(f, a, status, reconciled)]
    ensures ViewOf(g) == DoStep(ViewOf(f), a, Note(status, reconciled))
  {
    SameCommitted(f, g);
    hide Committed, CommittedAttempts;
  }

  /** What the sequence of guards in `execute` has established when the first effect is written. */
  ghost predicate Cleared(events: seq<Event>, f: EffectFiles, a: Action) {
    ValidAction(a) && ReservedExactly(events, a) && NoForeignRemedy(f, a.terms)
  }

  lemma ApplyCut(events: seq<Event>, f: EffectFiles, s: Source, e: Effect, tear: Option<string>)
    requires EffectInv(events, f) && AllTidy(f) && s in f.logs
    requires e.source == s && e.sequence == |Committed(f, s)| + 1 && !HasId(Committed(f, s), e.actionId)
    ensures EffectInv(events, EffectTorn(f, s, tear)) && ViewOf(EffectTorn(f, s, tear)) == ViewOf(f)
    ensures EffectInv(events, EffectAppended(f, s, e)) && ViewOf(EffectAppended(f, s, e)) == ViewOf(f)
    ensures e.actionId !in f.logs[s].commits
  {
    hide LogInv, AttemptInv, Backed, CommittedIn, CommittedAttempts, AllBacked, OneActionPerRemedy, ReceiptsBacked,
         AttemptsTidy;
    TornKeeps(s, f.logs[s], tear);
    UnmarkedKeeps(s, f.logs[s], e);
    EffectJournals.MarkedKeeps(s, f.logs[s], e);
    LogReplaced(events, f, s, EffectTorn(f, s, tear).logs[s]);
    LogReplaced(events, f, s, EffectAppended(f, s, e).logs[s]);
    SameView(f, EffectTorn(f, s, tear));
    SameView(f, EffectAppended(f, s, e));
  }

  lemma ApplyDone(events: seq<Event>, f: EffectFiles, a: Action, s: Source)
    requires EffectInv(events, f) && AllTidy(f) && s in f.logs && Cleared(events, f, a)
    requires s in RequiredSources(a.terms.operation) && !HasId(Committed(f, s), a.terms.actionId)
    ensures var g := EffectMarked(f, s, EffectOf(a.terms, s, |Committed(f, s)| + 1));
            && EffectInv(events, g) && AllTidy(g) && Cleared(events, g, a)
            && ViewOf(g) == DoStep(ViewOf(f), a, Apply(s))
  {
    hide LogInv, AttemptInv, Backed, CommittedIn, CommittedAttempts, AllBacked, OneActionPerRemedy, ReceiptsBacked,
         AttemptsTidy, EffectOf, NoForeignRemedy, ReservedExactly, ValidAction;
    var e := EffectOf(a.terms, s, |Committed(f, s)| + 1);
    EffectNames(a.terms, s, |Committed(f, s)| + 1);
    ReservedIsBacked(events, a, s, e.sequence);
    EffectJournals.MarkedKeeps(s, f.logs[s], e);
    var log := EffectMarked(f, s, e).logs[s];
    EffectCommitted(events, f, s, log, a.terms, e.sequence);
    ApplyShows(f, EffectMarked(f, s, e), a, s);
  }

  lemma ApplyShows(f: EffectFiles, g: EffectFiles, a: Action, s: Source)
    requires g.attempts == f.attempts && g.receipts == f.receipts
    requires forall u :: Committed(g, u)
                         == if u == s then Committed(f, s) + [EffectOf(a.terms, s, |Committed(f, s)| + 1)]
                                            else Committed(f, u)
    ensures ViewOf(g) == DoStep(ViewOf(f), a, Apply(s))
  {
    hide Committed, CommittedAttempts, EffectOf;
  }

  lemma IssueDone(events: seq<Event>, f: EffectFiles, a: Action, reconciled: bool)
    requires EffectInv(events, f) && AllTidy(f) && Cleared(events, f, a)
             && Applied(f, a.terms.operation, a.terms.actionId)
    ensures var g := f.(receipts := f.receipts[a.terms.actionId := ReceiptOf(a, reconciled)]);
            && EffectInv(events, g) && AllTidy(g) && Cleared(events, g, a)
            && ViewOf(g) == DoStep(ViewOf(f), a, Issue(reconciled))
  {
    hide EffectInv, LogTidy, AttemptsTidy, Committed, CommittedAttempts, Applied, ReservedExactly;
    ReservedExactlyIsFirst(events, a);
    ReceiptIssued(events, f, ReceiptOf(a, reconciled));
    var g := f.(receipts := f.receipts[a.terms.actionId := ReceiptOf(a, reconciled)]);
    SameCommitted(f, g);
  }

  lemma SameCommitted(f: EffectFiles, g: EffectFiles)
    requires g.logs == f.logs
    ensures forall s :: Committed(g, s) == Committed(f, s)
  {
  }

  class LocalSimulatedActionAdapter {
    const workspace: Workspace.FileRecoveryWorkspace
    var files: EffectFiles

    /** The committed ledger the effects rest on. */
    ghost function Events(): seq<Event>
      reads workspace
    {
      LedgerInvariant.Committed(workspace.files)
    }

    ghost predicate Valid()
      reads this, workspace
    {
      LedgerInvariant.LedgerInv(workspace.manifest, workspace.files) && EffectInv(Events(), files)
    }

    constructor (workspace: Workspace.FileRecoveryWorkspace)
      requires LedgerInvariant.LedgerInv(workspace.manifest, workspace.files)
      ensures Valid() && this.workspace == workspace && EffectInv([], files)
      ensures ViewOf(files) == View(map[PAYMENT := [], OMS := [], INVENTORY := [], WMS := []], [], map[])
    {
      hide LedgerInvariant.LedgerInv;
      this.workspace := workspace;
      var log := EffectLog(Journal([], None), map[]);
      files := EffectFiles(map[PAYMENT := log, OMS := log, INVENTORY := log, WMS := log],
                           AttemptLog(Journal([], None), map[]), map[], {});
      new;
      EmptyFilesHold(Events(), files);
      EmptyFilesHold([], files);
    }

    // ---- reading ----

    method ReadSource(s: Source) returns (r: Result<ReadState>)
      requires LogsInv(files.logs)
      ensures r.Ok? && r.value.committed == Committed(files, s)
      ensures SourceTail(s, r.value.suffix) == SourceSuffix(s, files.logs[s])
      ensures r.value.suffix == [] <==> LogTidy(files.logs[s])
    {
      hide LogInv, AdapterAccepts, VerifierAccepts, CommittedIn, LogTidy, Values;
      var log := files.logs[s];
      JournalReads(s, log);
      r := ReadEffectJournal(s, LinesOf(log.journal), log.commits);
      if r.Ok? {
        AdapterReadsCommitted(s, log, |r.value.committed|);
      }
    }

    method ReadAttempts() returns (r: Result<AttemptState>)
      requires AttemptInv(files.attempts)
      ensures r.Ok? && r.value.committed == CommittedAttempts(files.attempts)
      ensures AttemptTail(r.value.suffix) == AttemptSuffix(files.attempts)
      ensures r.value.suffix == [] <==> AttemptsTidy(files.attempts)
    {
      hide AttemptInv, AttemptsAccepted, CommittedAttempts, AttemptsTidy;
      var log := files.attempts;
      AttemptJournalReads(log);
      r := ReadAttemptJournal(LinesOf(log.journal), log.commits);
      if r.Ok? {
        AttemptLengthIsUnique(LinesOf(log.journal), log.commits, |r.value.committed|, |CommittedAttempts(log)|);
      }
    }

    // ---- suffix recovery ----

    method RecoverAttemptSuffix() returns (r: Result<bool>)
      requires Valid()
      modifies this`files, workspace`power
      ensures Valid() && Kept(old(files), files) && files.logs == old(files.logs)
      ensures r.Ok? ==> AttemptsTidy(files.attempts)
      ensures files.attempts != old(files.attempts) ==> old(AttemptSuffix(files.attempts)) in files.quarantine
      ensures files.quarantine <= old(files.quarantine) + {old(AttemptSuffix(files.attempts))}
      ensures r.Err? ==>
                || (r.error == Crash && workspace.power.writes == 0)
                || (r.error == Integrity && old(AttemptsBlocked(files)))
    {
      hide LedgerInvariant.LedgerInv, LogInv, AttemptInv, Backed, CommittedIn, CommittedAttempts, AllBacked,
           OneActionPerRemedy, ReceiptsBacked, AttemptsTidy, AttemptSuffix, ViewOf;
      var state := ReadAttempts();
      if state.value.suffix == [] {
        return Ok(true);
      }
      var tail := AttemptTail(state.value.suffix);
      if tail in files.quarantine {
        return Err(Integrity);
      }
      var alive := workspace.Spend();
      if !alive {
        return Err(Crash);
      }
      QuarantineKeepsEffects(Events(), files, tail);
      files := Quarantined(files, tail);
      alive := workspace.Spend();
      if !alive {
        return Err(Crash);
      }
      AttemptTailCut(Events(), files);
      files := files.(attempts := files.attempts.(journal := Journal(state.value.committed, None)));
      return Ok(true);
    }

    method RecoverSourceSuffix(s: Source) returns (r: Result<bool>)
      requires Valid()
      modifies this`files, workspace`power
      ensures Valid() && Kept(old(files), files) && files.attempts == old(files.attempts)
      ensures forall t :: t in files.logs && (t == s || files.logs[t] == old(files.logs)[t])
      ensures r.Ok? ==> LogTidy(files.logs[s])
      ensures files.logs[s] != old(files.logs)[s] ==> old(SourceSuffix(s, files.logs[s])) in files.quarantine
      ensures files.quarantine <= old(files.quarantine) + {old(SourceSuffix(s, files.logs[s]))}
      ensures r.Err? ==>
                (r.error == Crash && workspace.power.writes == 0) || (r.error == Integrity && old(BlockedAt(files, s)))
    {
      hide LedgerInvariant.LedgerInv, LogInv, AttemptInv, Backed, CommittedIn, CommittedAttempts, AllBacked,
           OneActionPerRemedy, ReceiptsBacked, LogTidy, SourceSuffix, ViewOf;
      var state := ReadSource(s);
      if state.value.suffix == [] {
        return Ok(true);
      }
      var tail := SourceTail(s, state.value.suffix);
      if tail in files.quarantine {
        return Err(Integrity);
      }
      var alive := workspace.Spend();
      if !alive {
        return Err(Crash);
      }
      QuarantineKeepsEffects(Events(), files, tail);
      files := Quarantined(files, tail);
      alive := workspace.Spend();
      if !alive {
        return Err(Crash);
      }
      SourceTailCut(Events(), files, s);
      files := WithLog(files, s, files.logs[s].(journal := Journal(state.value.committed, None)));
      return Ok(true);
    }

    /** The suffixes of all five journals, before anything is read for a decision. */
    method RecoverSuffixes() returns (r: Result<bool>)
      requires Valid()
      modifies this`files, workspace`power
      ensures Valid() && Kept(old(files), files) && Safeguarded(old(files), files)
      ensures r.Ok? ==> AllTidy(files)
      ensures r.Err? ==>
                (r.error == Crash && workspace.power.writes == 0) || (r.error == Integrity && old(Blocked(files)))
    {
      hide LedgerInvariant.LedgerInv, EffectInv, ViewOf, AttemptsTidy, LogTidy, SourceSuffix, AttemptSuffix,
           RecoveredSoFar, AllTidy, Kept;
      LogsOfAll(Events(), files);
      ghost var f := files;
      r := RecoverAttemptSuffix();
      if r.Err? {
        return;
      }
      RecoveryStarts(f, files);
      for i := 0 to 4
        invariant Valid() && RecoveredSoFar(f, files, i) && Safeguarded(f, files) && r.Ok?
      {
        ghost var g := files;
        r := RecoverSourceSuffix(ALL_SOURCES[i]);
        SoFarKept(f, g, files, i);
        SafeguardedNext(f, g, files, i);
        if r.Err? {
          if r.error == Integrity {
            BlockedFromStart(f, g, i);
          }
          return;
        }
        RecoveredNext(f, g, files, i);
      }
      RecoveredAll(f, files);
    }

    // ---- what the decision reads ----

    /** `_reservation`. */
    method CheckReservation(a: Action) returns (r: Result<bool>)
      ensures Ledger.ReadEvents(workspace.manifest, workspace.files).Err? <==> r.Err?
      ensures r.Err? ==> r == Err(Integrity)
      ensures r.Ok? ==> (r.value <==> ReservedExactly(workspace.files.journal.records, a))
    {
      hide Ledger.AllValid, Ledger.MarkersBind;
      var read := workspace.ReadEvents();
      if read.Err? {
        return Err(Integrity);
      }
      var events := read.value;
      var matches: seq<nat> := [];
      for i := 0 to |events|
        invariant forall k :: 0 <= k < |matches| ==> matches[k] < i && Reserves(events[matches[k]], a.terms.actionId)
        invariant forall k, l :: 0 <= k < l < |matches| ==> matches[k] < matches[l]
        invariant forall j :: 0 <= j < i && Reserves(events[j], a.terms.actionId) ==> j in matches
      {
        if Reserves(events[i], a.terms.actionId) {
          matches := matches + [i];
        }
      }
      if |matches| != 1 || ReservedContract(events[matches[0]]) != Some(a.contract) {
        if |matches| > 1 {
          assert Reserves(events[matches[0]], a.terms.actionId) && Reserves(events[matches[1]], a.terms.actionId);
        }
        return Ok(false);
      }
      assert Reserves(events[matches[0]], a.terms.actionId);
      return Ok(true);
    }

    /** The attempts made under this idempotency key, and whether one of them was for another contract. */
    method CheckKey(a: Action) returns (used: bool, conflict: bool)
      requires AttemptInv(files.attempts) && AttemptsTidy(files.attempts)
      ensures used == KeyUsed(CommittedAttempts(files.attempts), a)
      ensures conflict == KeyConflict(CommittedAttempts(files.attempts), a)
    {
      hide AttemptInv;
      var state := ReadAttempts();
      var attempts := state.value.committed;
      used, conflict := false, false;
      for i := 0 to |attempts|
        invariant used == exists j :: 0 <= j < i && attempts[j].idempotencyKey == a.terms.idempotencyKey
        invariant conflict == exists j :: 0 <= j < i && attempts[j].idempotencyKey == a.terms.idempotencyKey
                                          && attempts[j].contract != a.contract
      {
        if attempts[i].idempotencyKey == a.terms.idempotencyKey {
          used := true;
          if attempts[i].contract != a.contract {
            conflict := true;
          }
        }
      }
    }

    /** Another action already serves this case and business key, in any of the four sources. */
    method CheckOthers(t: ActionTerms) returns (served: bool)
      requires LogsInv(files.logs)
      ensures served == ServedByOther(ViewOf(files), t)
    {
      hide LogInv, CommittedIn;
      ViewShows(files);
      for i := 0 to 4
        invariant forall j, k :: 0 <= j < i && 0 <= k < |Committed(files, ALL_SOURCES[j])|
                    ==> !Foreign(Committed(files, ALL_SOURCES[j])[k], t)
      {
        var s := ALL_SOURCES[i];
        var state := ReadSource(s);
        var effects := state.value.committed;
        for j := 0 to |effects|
          invariant forall k :: 0 <= k < j ==> !Foreign(effects[k], t)
        {
          if Foreign(effects[j], t) {
            assert Foreign(EffectsIn(ViewOf(files), s)[j], t);
            return true;
          }
        }
      }
      forall s, k | 0 <= k < |Committed(files, s)| ensures !Foreign(Committed(files, s)[k], t) {
        SourceListed(s);
      }
      return false;
    }

    /** Which required sources hold this action's effect. */
    method Observe(a: Action) returns (present: set<Source>)
      requires LogsInv(files.logs)
      ensures present == Present(ViewOf(files), a)
    {
      hide LogInv, CommittedIn;
      ViewShows(files);
      var required := RequiredSources(a.terms.operation);
      present := {};
      for i := 0 to |required|
        invariant present == set s | s in required[..i] && HasEffect(ViewOf(files), s, a.terms.actionId)
      {
        var state := ReadSource(required[i]);
        assert required[..i + 1] == required[..i] + [required[i]];
        if HasId(state.value.committed, a.terms.actionId) {
          present := present + {required[i]};
        }
      }
      assert required[..|required|] == required;
    }

    // ---- writing ----

    /** `_append_attempt`: the line, then its marker. */
    method AppendAttempt(a: Action, status: AttemptStatus, reconciled: bool) returns (r: Result<bool>)
      requires Valid() && AllTidy(files)
      modifies this`files, workspace`power
      ensures Valid() && files.receipts == old(files.receipts)
      ensures old(Cleared(Events(), files, a)) ==> Cleared(Events(), files, a)
      ensures r.Ok? ==> AllTidy(files) && ViewOf(files) == DoStep(old(ViewOf(files)), a, Note(status, reconciled))
      ensures r.Err? ==> r == Err(Crash) && workspace.power.writes == 0 && ViewOf(files) == old(ViewOf(files))
    {
      hide LedgerInvariant.LedgerInv, EffectInv, LogTidy, CommittedIn, CommittedAttempts, ViewOf, DoStep, Cleared;
      AttemptsHold(Events(), files);
      if Cleared(Events(), files, a) {
        forall g: EffectFiles | g.logs == files.logs ensures Cleared(Events(), g, a) {
          ClearedKept(Events(), files, g, a);
        }
      }
      var state := ReadAttempts();
      if state.value.suffix != [] {
        return Err(Control);
      }
      var entry := AttemptOf(a, |state.value.committed| + 1, status, reconciled);
      NoteCut(Events(), files, entry, workspace.power.tear);
      NoteDone(Events(), files, a, status, reconciled);
      var alive := workspace.Spend();
      if !alive {
        files := AttemptTorn(files, workspace.power.tear);
        return Err(Crash);
      }
      alive := workspace.Spend();
      if !alive {
        files := AttemptAppended(files, entry);
        return Err(Crash);
      }
      files := AttemptCommitted(files, entry);
      return Ok(true);
    }

    /** `_append_effect`: the line, then its marker, which is the moment the effect happens. */
    method AppendEffect(a: Action, s: Source) returns (r: Result<bool>)
      requires Valid() && AllTidy(files) && Cleared(Events(), files, a)
      requires s in RequiredSources(a.terms.operation) && !HasId(Committed(files, s), a.terms.actionId)
      modifies this`files, workspace`power
      ensures Valid() && files.receipts == old(files.receipts)
      ensures r.Ok? ==>
                && AllTidy(files) && Cleared(Events(), files, a)
                && ViewOf(files) == DoStep(old(ViewOf(files)), a, Apply(s))
      ensures r.Err? ==> r == Err(Crash) && workspace.power.writes == 0 && ViewOf(files) == old(ViewOf(files))
    {
      hide LedgerInvariant.LedgerInv, EffectInv, LogTidy, AttemptsTidy, CommittedIn, CommittedAttempts, ViewOf,
           DoStep, EffectOf, Cleared, RequiredSources;
      LogsOfAll(Events(), files);
      var state := ReadSource(s);
      if state.value.suffix != [] {
        return Err(OutcomeUnknown);
      }
      if HasId(state.value.committed, a.terms.actionId) {
        return Ok(true);
      }
      var effect := EffectOf(a.terms, s, |state.value.committed| + 1);
      EffectNames(a.terms, s, |state.value.committed| + 1);
      ApplyCut(Events(), files, s, effect, workspace.power.tear);
      ApplyDone(Events(), files, a, s);
      var alive := workspace.Spend();
      if !alive {
        files := EffectTorn(files, s, workspace.power.tear);
        return Err(Crash);
      }
      alive := workspace.Spend();
      if !alive {
        files := EffectAppended(files, s, effect);
        return Err(Crash);
      }
      files := EffectMarked(files, s, effect);
      return Ok(true);
    }

    /** The write-once receipt. */
    method IssueReceipt(a: Action, reconciled: bool) returns (r: Result<Receipt>)
      requires Valid() && AllTidy(files) && Cleared(Events(), files, a)
      requires Applied(files, a.terms.operation, a.terms.actionId) && a.terms.actionId !in files.receipts
      modifies this`files, workspace`power
      ensures Valid()
      ensures r.Ok? ==> AllTidy(files) && r.value == ReceiptOf(a, reconciled)
                        && ViewOf(files) == DoStep(old(ViewOf(files)), a, Issue(reconciled))
      ensures r.Err? ==> r == Err(Crash) && workspace.power.writes == 0 && ViewOf(files) == old(ViewOf(files))
    {
      hide LedgerInvariant.LedgerInv, EffectInv, AllTidy, ViewOf, DoStep, Cleared, Applied, ReceiptOf;
      var receipt := ReceiptOf(a, reconciled);
      IssueDone(Events(), files, a, reconciled);
      if a.terms.actionId in files.receipts {
        return Err(Integrity);
      }
      var alive := workspace.Spend();
      if !alive {
        return Err(Crash);
      }
      files := files.(receipts := files.receipts[a.terms.actionId := receipt]);
      return Ok(receipt);
    }

    // ---- execute ----

    /** Reserved, without a receipt, and clear of every competing remedy: run the remedy once. */
    method ExecuteFresh(a: Action, reconciled: bool, fault: Fault) returns (r: Result<Receipt>, ghost done: seq<Step>)
      requires Valid() && AllTidy(files) && Cleared(Events(), files, a)
      requires Present(ViewOf(files), a) == {} && a.terms.actionId !in files.receipts
      modifies this`files, workspace`power
      ensures Valid()
      ensures Followed(old(ViewOf(files)), a, FreshPlan(a, reconciled, fault), done, ViewOf(files), r)
      ensures r == Err(Crash) ==> workspace.power.writes == 0
    {
      hide LedgerInvariant.LedgerInv, EffectInv, AllTidy, ViewOf, DoStep, DoAll, Cleared, Applied, ReceiptOf,
           Progress;
      ghost var v := ViewOf(files);
      done := [];
      DoOne(v, a, Note(EffectStarted, reconciled));
      ProgressNone(v, a);
      var ok := AppendAttempt(a, EffectStarted, reconciled);
      if ok.Err? {
        return Err(Crash), [];
      }
      ProgressNote(v, a, 0, EffectStarted, reconciled);
      done := [Note(EffectStarted, reconciled)];
      if fault in {BeforeMutation, TimeoutBeforeMutation} {
        ok := AppendAttempt(a, FailedBeforeMutation, false);
        if ok.Err? {
          return Err(Crash), done;
        }
        DoNext(v, a, done, Note(FailedBeforeMutation, false));
        return Err(Control), done + [Note(FailedBeforeMutation, false)];
      }
      r, done := ApplySources(a, reconciled, fault, v);
    }

    /** Reconcile before anything is written; a partly applied remedy is left to an explicit recovery. */
    method Reconcile(a: Action, fault: Fault, used: bool) returns (r: Result<Receipt>, ghost done: seq<Step>)
      requires Valid() && AllTidy(files) && Cleared(Events(), files, a) && a.terms.actionId !in files.receipts
      requires used == KeyUsed(ViewOf(files).attempts, a)
      modifies this`files, workspace`power
      ensures Valid()
      ensures Followed(old(ViewOf(files)), a, ReconcilePlan(old(ViewOf(files)), a, fault), done, ViewOf(files), r)
      ensures r == Err(Crash) ==> workspace.power.writes == 0
    {
      hide LedgerInvariant.LedgerInv, EffectInv, AllTidy, ViewOf, DoStep, DoAll, Cleared, Applied, ReceiptOf, KeyUsed,
           Present, FreshPlan;
      ghost var v := ViewOf(files);
      LogsOfAll(Events(), files);
      var present := Observe(a);
      var required := Required(a);
      if present != {} && present != required {
        DoOne(v, a, Note(PartialEffectRequiresRecovery, true));
        var ok := AppendAttempt(a, PartialEffectRequiresRecovery, true);
        if ok.Err? {
          return Err(Crash), [];
        }
        return Err(OutcomeUnknown), [Note(PartialEffectRequiresRecovery, true)];
      }
      if present != {} {
        AllPresent(v, a);
        NowApplied(files, a);
        DoOne(v, a, Issue(true));
        r, done := IssueAndNote(a, true, ReconciledCommittedEffect, v, []);
        return;
      }
      r, done := ExecuteFresh(a, used, fault);
    }

    /** From the receipt lookup to the end, on recovered journals and under an exact reservation. */
    method ExecuteReserved(a: Action, fault: Fault) returns (r: Result<Receipt>, ghost done: seq<Step>)
      requires Valid() && AllTidy(files) && ValidAction(a) && ReservedExactly(Events(), a)
      modifies this`files, workspace`power
      ensures Valid()
      ensures Followed(old(ViewOf(files)), a, ExecutePlan(old(ViewOf(files)), true, a, fault), done, ViewOf(files), r)
      ensures r == Err(Crash) ==> workspace.power.writes == 0
    {
      hide LedgerInvariant.LedgerInv, EffectInv, LogTidy, CommittedIn, ViewOf, DoAll, DoStep, ReservedExactly,
           ValidAction, KeyUsed, KeyConflict, ServedByOther, Present, FreshPlan, ReconcilePlan;
      ghost var v := ViewOf(files);
      DoOne(v, a, Issue(true));
      ViewFields(files);
      if a.terms.actionId in files.receipts {
        var existing := files.receipts[a.terms.actionId];
        return if existing.contract != a.contract then Err(Control) else Ok(existing), [];
      }
      AttemptsHold(Events(), files);
      var used, conflict := CheckKey(a);
      if conflict {
        return Err(Control), [];
      }
      var served := CheckOthers(a.terms);
      if served {
        return Err(Control), [];
      }
      NotServed(files, a.terms);
      r, done := Reconcile(a, fault, used);
    }

    /**
     * `execute`. Unless suffix recovery or the ledger's own reader refuses, the committed view moves along the plan
     * made from the committed view before the call: all of it, or the part before a crash.
     */
    method Execute(a: Action, fault: Fault) returns (r: Result<Receipt>)
      requires Valid()
      modifies this`files, workspace`power
      ensures Valid()
      ensures !ValidAction(a) ==> r == Err(Control) && files == old(files)
      ensures r == Err(Crash) ==> workspace.power.writes == 0
      ensures r == Err(Integrity) ==> ViewOf(files) == old(ViewOf(files))
                                      && (old(Blocked(files))
                                          || Ledger.ReadEvents(workspace.manifest, workspace.files).Err?)
      ensures ValidAction(a) && r != Err(Integrity)
              ==> (r == Err(Crash) && ViewOf(files) == old(ViewOf(files)))
                  || Follows(old(ViewOf(files)), a, ExecutePlan(old(ViewOf(files)), ReservedExactly(Events(), a), a,
                                                                fault),
                             ViewOf(files), r)
    {
      hide LedgerInvariant.LedgerInv, EffectInv, AllTidy, ViewOf, DoAll, ReservedExactly, ValidAction,
           Ledger.ReadEvents, ExecutePlan, Blocked;
      if !ValidAction(a) {
        return Err(Control);
      }
      ghost var v := ViewOf(files);
      var ok := RecoverSuffixes();
      if ok.Err? {
        return Err(ok.error);
      }
      ok := CheckReservation(a);
      if ok.Err? {
        return Err(Integrity);
      }
      LedgerInvariant.ReadableIffTidy(workspace.manifest, workspace.files);
      if !ok.value {
        UnreservedDoesNothing(v, a, fault);
        return Err(Control);
      }
      ghost var done;
      r, done := ExecuteReserved(a, fault);
      assert Followed(v, a, ExecutePlan(v, true, a, fault), done, ViewOf(files), r);
      assert r != Err(Integrity) by {
        PlansNeverRefuseIntegrity(v, true, a, fault);
      }
    }

    /** The effect loop, and what follows it. */
    method ApplySources(a: Action, reconciled: bool, fault: Fault, ghost v: View)
      returns (r: Result<Receipt>, ghost done: seq<Step>)
      requires Valid() && AllTidy(files) && Cleared(Events(), files, a)
      requires fault !in {BeforeMutation, TimeoutBeforeMutation} && a.terms.actionId !in files.receipts
      requires ViewOf(files) == DoAll(v, a, [Note(EffectStarted, reconciled)]) && Progress(ViewOf(files), a, 0)
      modifies this`files, workspace`power
      ensures Valid()
      ensures Followed(v, a, FreshPlan(a, reconciled, fault), done, ViewOf(files), r)
      ensures r == Err(Crash) ==> workspace.power.writes == 0
    {
      hide LedgerInvariant.LedgerInv, EffectInv, AllTidy, ViewOf, DoStep, DoAll, Cleared, Applied, ReceiptOf,
           Progress;
      var sources := RequiredSources(a.terms.operation);
      done := [Note(EffectStarted, reconciled)];
      for i := 0 to |sources|
        invariant Valid() && AllTidy(files) && Cleared(Events(), files, a) && a.terms.actionId !in files.receipts
        invariant done == [Note(EffectStarted, reconciled)] + Applies(sources[..i])
        invariant ViewOf(files) == DoAll(v, a, done) && Progress(ViewOf(files), a, i)
        invariant fault == AfterFirstEffect ==> i == 0
      {
        NotYetApplied(files, a, i);
        ProgressNext(ViewOf(files), a, i);
        var ok := AppendEffect(a, sources[i]);
        if ok.Err? {
          AppliesPrefix(sources, i);
          return Err(Crash), done;
        }
        DoNext(v, a, done, Apply(sources[i]));
        assert sources[..i + 1] == sources[..i] + [sources[i]];
        done := done + [Apply(sources[i])];
        if fault == AfterFirstEffect && i == 0 {
          r := Finish(a, EffectUnknown);
          if r == Err(OutcomeUnknown) {
            DoNext(v, a, done, Note(EffectUnknown, false));
            done := done + [Note(EffectUnknown, false)];
          }
          return;
        }
      }
      assert sources[..|sources|] == sources;
      if fault in {AfterMutationBeforeReceipt, TimeoutAfterMutation, ReceiptPersistenceFailure} {
        r := Finish(a, EffectUnknown);
        if r == Err(OutcomeUnknown) {
          DoNext(v, a, done, Note(EffectUnknown, false));
          done := done + [Note(EffectUnknown, false)];
        }
        return;
      }
      ProgressAll(ViewOf(files), a);
      NowApplied(files, a);
      r, done := IssueAndNote(a, reconciled, SimulatedEffectCommitted, v, done);
    }

    /** The receipt first, then the attempt that reports it. */
    method IssueAndNote(a: Action, reconciled: bool, status: AttemptStatus, ghost v: View, ghost before: seq<Step>)
      returns (r: Result<Receipt>, ghost done: seq<Step>)
      requires Valid() && AllTidy(files) && Cleared(Events(), files, a)
      requires Applied(files, a.terms.operation, a.terms.actionId) && a.terms.actionId !in files.receipts
      requires ViewOf(files) == DoAll(v, a, before)
      modifies this`files, workspace`power
      ensures Valid() && ViewOf(files) == DoAll(v, a, done)
      ensures r.Ok? ==>
                && r.value == ReceiptOf(a, reconciled)
                && done == before + [Issue(reconciled), Note(status, reconciled)]
      ensures r.Err? ==>
                && r == Err(Crash) && workspace.power.writes == 0
                && (done == before || done == before + [Issue(reconciled)])
    {
      hide LedgerInvariant.LedgerInv, EffectInv, AllTidy, ViewOf, DoStep, DoAll, Cleared, Applied, ReceiptOf;
      done := before;
      var receipt := IssueReceipt(a, reconciled);
      if receipt.Err? {
        return Err(Crash), done;
      }
      DoNext(v, a, done, Issue(reconciled));
      done := done + [Issue(reconciled)];
      var ok := AppendAttempt(a, status, reconciled);
      if ok.Err? {
        return Err(Crash), done;
      }
      DoNext(v, a, done, Note(status, reconciled));
      assert done + [Note(status, reconciled)] == before + [Issue(reconciled), Note(status, reconciled)];
      return receipt, done + [Note(status, reconciled)];
    }

    /** The last attempt entry of a call that ends without a receipt. */
    method Finish(a: Action, status: AttemptStatus) returns (r: Result<Receipt>)
      requires Valid() && AllTidy(files)
      modifies this`files, workspace`power
      ensures Valid()
      ensures r == Err(OutcomeUnknown) ==> ViewOf(files) == DoStep(old(ViewOf(files)), a, Note(status, false))
      ensures r == Err(Crash) ==> workspace.power.writes == 0 && ViewOf(files) == old(ViewOf(files))
      ensures r == Err(OutcomeUnknown) || r == Err(Crash)
    {
      hide LedgerInvariant.LedgerInv, EffectInv, AllTidy, ViewOf, DoStep;
      var ok := AppendAttempt(a, status, false);
      return Err(if ok.Err? then Crash else OutcomeUnknown);
    }
  }

  lemma NotYetApplied(f: EffectFiles, a: Action, i: nat)
    requires Progress(ViewOf(f), a, i) && i < |RequiredSources(a.terms.operation)|
    ensures !HasId(Committed(f, RequiredSources(a.terms.operation)[i]), a.terms.actionId)
  {
    hide Committed, HasId, RequiredSources;
    ViewShows(f);
  }

  lemma UnreservedDoesNothing(v: View, a: Action, fault: Fault)
    ensures Follows(v, a, ExecutePlan(v, false, a, fault), v, Err(Control))
  {
    assert Followed(v, a, ExecutePlan(v, false, a, fault), [], v, Err(Control));
  }

  lemma PlansNeverRefuseIntegrity(v: View, reserved: bool, a: Action, fault: Fault)
    ensures var o := ExecutePlan(v, reserved, a, fault).outcome; o != Err(Integrity) && o != Err(Crash)
  {
    hide Present, Required, KeyUsed, KeyConflict, ServedByOther;
  }

  lemma ClearedKept(events: seq<Event>, f: EffectFiles, g: EffectFiles, a: Action)
    requires Cleared(events, f, a) && g.logs == f.logs
    ensures Cleared(events, g, a)
  {
    SameCommitted(f, g);
  }

  lemma AppliesPrefix(sources: seq<Source>, i: nat)
    requires i <= |sources|
    ensures Applies(sources[..i]) <= Applies(sources)
  {
  }

  lemma AttemptsHold(events: seq<Event>, f: EffectFiles)
    requires EffectInv(events, f)
    ensures AttemptInv(f.attempts) && LogsInv(f.logs)
  {
  }

  lemma LogsOfAll(events: seq<Event>, f: EffectFiles)
    requires EffectInv(events, f)
    ensures forall s :: s in f.logs
    ensures LogsInv(f.logs)
  {
  }

  lemma SourceListed(s: Source)
    ensures exists i :: 0 <= i < 4 && ALL_SOURCES[i] == s
  {
    var i := match s case PAYMENT => 0 case OMS => 1 case INVENTORY => 2 case WMS => 3;
    assert ALL_SOURCES[i] == s;
  }

  lemma SourcesDiffer(i: nat)
    requires i < 4
    ensures ALL_SOURCES[i] !in ALL_SOURCES[..i]
  {
  }

  lemma EmptyFilesHold(events: seq<Event>, f: EffectFiles)
    requires var log := EffectLog(Journal([], None), map[]);
             f == EffectFiles(map[PAYMENT := log, OMS := log, INVENTORY := log, WMS := log],
                              AttemptLog(Journal([], None), map[]), map[], {})
    ensures EffectInv(events, f)
    ensures ViewOf(f) == View(map[PAYMENT := [], OMS := [], INVENTORY := [], WMS := []], [], map[])
  {
    forall s ensures s in f.logs && f.logs[s] == EffectLog(Journal([], None), map[]) && Committed(f, s) == [] {
      match s case PAYMENT => case OMS => case INVENTORY => case WMS =>
    }
  }
}
