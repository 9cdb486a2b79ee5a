/** The attempt journal: its reader, exactly, and what each durable step does to it. */
module AttemptJournals {
  import opened Results
  import opened Records
  import opened Journals
  import opened EffectReaders
  import opened EffectJournals

  datatype AttemptState = AttemptState(committed: seq<Attempt>, suffix: seq<Line<Attempt>>)

  predicate Numbered(line: Line<Attempt>, position: int) {
    line.Rec? && line.value.sequence == position
  }

  /** Numbered records up to the first piece without its LF, and markers 1..n that bind the first n. */
  ghost predicate AttemptsAccepted(lines: seq<Line<Attempt>>, commits: map<int, AttemptMarker>, n: nat) {
    var k := FirstOpen(lines);
    FirstOpenBound(lines);
    && n <= k
    && (forall i :: 0 <= i < k ==> Numbered(lines[i], i + 1))
    && (forall i :: 0 <= i < n ==> AttemptBound(commits, lines[i].value, i + 1))
    && commits.Keys == UpTo(n)
  }

  /** What the loop knows after reading the first i pieces, n of them committed. */
  ghost predicate AttemptsSoFar(lines: seq<Line<Attempt>>, commits: map<int, AttemptMarker>, i: nat, n: nat) {
    && n <= i <= FirstOpen(lines) <= |lines|
    && (forall p :: 0 <= p < i ==> Numbered(lines[p], p + 1))
    && (forall p :: 0 <= p < n ==> AttemptBound(commits, lines[p].value, p + 1))
    && (n < i ==> n + 1 !in commits)
  }

  lemma NumberRefused(lines: seq<Line<Attempt>>, commits: map<int, AttemptMarker>, i: nat, n: nat)
    requires AttemptsSoFar(lines, commits, i, n) && i < FirstOpen(lines)
    requires !Numbered(lines[i], i + 1)
    ensures forall n' :: !AttemptsAccepted(lines, commits, n')
  {
  }

  /** An accepted marker binds its record, and every position before it has one. */
  lemma MarkersBelow(lines: seq<Line<Attempt>>, commits: map<int, AttemptMarker>, i: nat, n: nat)
    requires AttemptsAccepted(lines, commits, n) && i + 1 in commits && i < |lines| && lines[i].Rec?
    ensures AttemptBound(commits, lines[i].value, i + 1)
    ensures forall p :: 1 <= p <= i + 1 ==> p in commits
  {
    assert i + 1 in commits.Keys;
    assert forall p :: 1 <= p <= i + 1 ==> p in commits.Keys;
  }

  lemma MarkerRefused(lines: seq<Line<Attempt>>, commits: map<int, AttemptMarker>, i: nat, n: nat)
    requires AttemptsSoFar(lines, commits, i, n) && i < FirstOpen(lines)
    requires i + 1 in commits && Numbered(lines[i], i + 1)
    requires n < i || !AttemptBound(commits, lines[i].value, i + 1)
    ensures forall n' :: !AttemptsAccepted(lines, commits, n')
  {
    hide AttemptsAccepted;
    forall n': nat | AttemptsAccepted(lines, commits, n') ensures false {
      MarkersBelow(lines, commits, i, n');
    }
  }

  lemma InventorySettles(lines: seq<Line<Attempt>>, commits: map<int, AttemptMarker>, n: nat)
    requires AttemptsSoFar(lines, commits, FirstOpen(lines), n)
    ensures commits.Keys == UpTo(n) ==> AttemptsAccepted(lines, commits, n)
    ensures commits.Keys != UpTo(n) ==> forall n' :: !AttemptsAccepted(lines, commits, n')
  {
    forall n': nat | AttemptsAccepted(lines, commits, n') ensures n' == n {
      assert n + 1 in commits.Keys <==> n + 1 <= n';
      assert n > 0 ==> AttemptBound(commits, lines[n - 1].value, n);
    }
  }

  /** `_attempt_journal_state`. */
  method ReadAttemptJournal(lines: seq<Line<Attempt>>, commits: map<int, AttemptMarker>)
    returns (r: Result<AttemptState>)
    ensures r.Ok? ==> AttemptsAccepted(lines, commits, |r.value.committed|)
    ensures r.Ok? ==> |r.value.committed| <= |lines| && r.value.suffix == lines[|r.value.committed|..]
                      && forall i :: 0 <= i < |r.value.committed| ==> lines[i] == Rec(r.value.committed[i])
    ensures r.Err? ==> forall n :: !AttemptsAccepted(lines, commits, n)
  {
    hide AttemptsAccepted;
    FirstOpenBound(lines);
    var committed: seq<Attempt> := [];
    var suffixStarted := false;
    var i := 0;
    while i < |lines| && !lines[i].Open?
      invariant AttemptsSoFar(lines, commits, i, |committed|)
      invariant forall p :: 0 <= p < |committed| ==> lines[p] == Rec(committed[p])
      invariant suffixStarted == (|committed| < i)
      decreases |lines| - i
    {
      if !Numbered(lines[i], i + 1) {
        NumberRefused(lines, commits, i, |committed|);
        return Err(Control);
      }
      if i + 1 !in commits {
        suffixStarted := true;
      } else if suffixStarted || !AttemptBound(commits, lines[i].value, i + 1) {
        MarkerRefused(lines, commits, i, |committed|);
        return Err(Control);
      } else {
        committed := committed + [lines[i].value];
      }
      i := i + 1;
    }
    InventorySettles(lines, commits, |committed|);
    if commits.Keys != UpTo(|committed|) {
      return Err(Control);
    }
    return Ok(AttemptState(committed, lines[|committed|..]));
  }

  /** The committed list is determined by the markers alone. */
  lemma AttemptLengthIsUnique(lines: seq<Line<Attempt>>, commits: map<int, AttemptMarker>, n: nat, n': nat)
    requires AttemptsAccepted(lines, commits, n) && AttemptsAccepted(lines, commits, n')
    ensures n == n'
  {
  }

  lemma AttemptJournalReads(log: AttemptLog)
    requires AttemptInv(log)
    ensures var lines, c := LinesOf(log.journal), CommittedAttempts(log);
            && AttemptsAccepted(lines, log.commits, |c|) && |c| <= |lines|
            && (forall i :: 0 <= i < |c| ==> lines[i] == Rec(c[i]))
            && (lines[|c|..] == [] <==> AttemptsTidy(log))
  {
    NoOpenInRecs(LinesOf(log.journal), |log.journal.records|);
  }

  // ---- durable steps ----

  function AttemptMarked(log: AttemptLog, e: Attempt): AttemptLog {
    AttemptLog(Journal(log.journal.records + [e], None), log.commits[e.sequence := AttemptMarker(OfAttempt(e),
                                                                                                 e.sequence)])
  }

  lemma AttemptTornKeeps(log: AttemptLog, tear: Option<string>)
    requires AttemptInv(log) && AttemptsTidy(log)
    ensures var g := log.(journal := log.journal.(torn := tear));
            AttemptInv(g) && CommittedAttempts(g) == CommittedAttempts(log)
  {
  }

  lemma AttemptUnmarkedKeeps(log: AttemptLog, e: Attempt)
    requires AttemptInv(log) && AttemptsTidy(log) && e.sequence == |log.journal.records| + 1
    ensures var g := log.(journal := Journal(log.journal.records + [e], None));
            AttemptInv(g) && CommittedAttempts(g) == CommittedAttempts(log)
    ensures e.sequence !in log.commits
  {
    assert (log.journal.records + [e])[..|log.journal.records|] == log.journal.records;
    assert |log.journal.records| + 1 !in log.commits.Keys;
  }

  lemma AttemptMarkedKeeps(log: AttemptLog, e: Attempt)
    requires AttemptInv(log) && AttemptsTidy(log) && e.sequence == |log.journal.records| + 1
    ensures var g := AttemptMarked(log, e);
            AttemptInv(g) && AttemptsTidy(g) && CommittedAttempts(g) == CommittedAttempts(log) + [e]
  {
    var g := AttemptMarked(log, e);
    assert CommittedAttempts(g) == log.journal.records + [e];
    assert UpTo(|log.journal.records| + 1) == UpTo(|log.journal.records|) + {|log.journal.records| + 1};
  }

  lemma AttemptCutKeeps(log: AttemptLog)
    requires AttemptInv(log)
    ensures var g := log.(journal := Journal(CommittedAttempts(log), None));
            AttemptInv(g) && AttemptsTidy(g) && CommittedAttempts(g) == CommittedAttempts(log)
  {
    var c := CommittedAttempts(log);
    assert c != [] ==> |c| in log.commits.Keys;
  }

  /** Replacing the attempt journal leaves every effect and receipt as it was. */
  lemma AttemptsReplaced(events: seq<Event>, f: EffectFiles, log: AttemptLog)
    requires EffectInv(events, f) && AttemptInv(log)
    ensures EffectInv(events, f.(attempts := log)) && SameEffects(f, f.(attempts := log))
  {
    hide AttemptInv, LogInv, Backed;
    SameEffectsKeep(events, f, f.(attempts := log));
  }

  /**
   * Whatever the files hold, the attempts taken as committed are numbered from one, and the markers are numbered alike
   * and name exactly their contents.
   */
  lemma AcceptedAttemptsAreMarked(lines: seq<Line<Attempt>>, commits: map<int, AttemptMarker>, n: nat)
    requires AttemptsAccepted(lines, commits, n)
    ensures n <= |lines|
    ensures forall i :: 0 <= i < n
              ==> && lines[i].Rec? && lines[i].value.sequence == i + 1 && i + 1 in commits
                  && commits[i + 1].digest == OfAttempt(lines[i].value) && commits[i + 1].sequence == i + 1
    ensures forall p :: p in commits ==> 1 <= p <= n
  {
    FirstOpenBound(lines);
    forall i | 0 <= i < n
      ensures && lines[i].Rec? && lines[i].value.sequence == i + 1 && i + 1 in commits
              && commits[i + 1].digest == OfAttempt(lines[i].value) && commits[i + 1].sequence == i + 1
    {
      assert Numbered(lines[i], i + 1) && AttemptBound(commits, lines[i].value, i + 1);
    }
    forall p | p in commits ensures 1 <= p <= n {
      assert p in commits.Keys;
    }
  }
}
