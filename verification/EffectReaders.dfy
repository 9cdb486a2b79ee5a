/**
 * The two readers of a source-effect journal: the adapter's, which may recover a suffix, and the verifier's,
 * which re-parses the same bytes with its own loop. A journal is the list of pieces its bytes split into.
 */
module EffectReaders {
  import opened Results
  import opened Records
  import opened Journals

  datatype EffectMarker = EffectMarker(actionId: string, digest: Digest, sequence: int, source: Source)

  type Markers = map<string, EffectMarker>

  datatype ReadState = ReadState(committed: seq<Effect>, suffix: seq<Line<Effect>>)

  // ---- what a journal and its marker directory say ----

  function FirstOpen<T>(lines: seq<Line<T>>): nat {
    if lines == [] || lines[0].Open? then 0 else 1 + FirstOpen(lines[1..])
  }

  predicate Fits(s: Source, line: Line<Effect>) {
    line.Rec? && line.value.source == s
  }

  ghost predicate DistinctIds(lines: seq<Line<Effect>>) {
    forall i, j :: 0 <= i < j < |lines| && lines[i].Rec? && lines[j].Rec?
      ==> lines[i].value.actionId != lines[j].value.actionId
  }

  function MarkerFor(s: Source, e: Effect, position: int): EffectMarker {
    EffectMarker(e.actionId, OfEffect(e), position, s)
  }

  predicate MarkerBound(s: Source, commits: Markers, e: Effect, position: int) {
    e.actionId in commits && commits[e.actionId] == MarkerFor(s, e, position) && e.sequence == position
  }

  predicate Unmarked(commits: Markers, line: Line<Effect>) {
    line.Rec? ==> line.value.actionId !in commits
  }

  function Values(lines: seq<Line<Effect>>): seq<Effect> {
    if lines == [] then []
    else Values(lines[..|lines| - 1]) + (if lines[|lines| - 1].Rec? then [lines[|lines| - 1].value] else [])
  }

  function IdsOf(lines: seq<Line<Effect>>): set<string> {
    set i | 0 <= i < |lines| && lines[i].Rec? :: lines[i].value.actionId
  }

  /** The first n lines carry binding markers, no later line carries one, and there are no other markers. */
  ghost predicate CommittedPrefix(s: Source, lines: seq<Line<Effect>>, commits: Markers, n: nat) {
    && n <= |lines|
    && (forall i :: 0 <= i < n ==> lines[i].Rec? && MarkerBound(s, commits, lines[i].value, i + 1))
    && (forall i :: n <= i < |lines| ==> Unmarked(commits, lines[i]))
    && commits.Keys == IdsOf(lines[..n])
  }

  /** The adapter stops at the first piece without its LF. */
  ghost predicate AdapterAccepts(s: Source, lines: seq<Line<Effect>>, commits: Markers, n: nat) {
    var k := FirstOpen(lines);
    FirstOpenBound(lines);
    && (forall i :: 0 <= i < k ==> Fits(s, lines[i]))
    && DistinctIds(lines[..k])
    && CommittedPrefix(s, lines[..k], commits, n)
  }

  /** The verifier skips such a piece and goes on reading. */
  ghost predicate VerifierAccepts(s: Source, lines: seq<Line<Effect>>, commits: Markers, n: nat) {
    && n <= FirstOpen(lines)
    && (forall i :: 0 <= i < |lines| ==> lines[i].Open? || Fits(s, lines[i]))
    && DistinctIds(lines)
    && CommittedPrefix(s, lines, commits, n)
  }

  lemma {:induction false} FirstOpenBound<T>(lines: seq<Line<T>>)
    ensures FirstOpen(lines) <= |lines|
    ensures forall i :: 0 <= i < FirstOpen(lines) ==> !lines[i].Open?
    ensures FirstOpen(lines) < |lines| ==> lines[FirstOpen(lines)].Open?
  {
    if lines != [] && !lines[0].Open? {
      FirstOpenBound(lines[1..]);
      assert forall i :: 1 <= i < FirstOpen(lines) ==> lines[i] == lines[1..][i - 1];
    }
  }

  lemma MarkedAt(s: Source, lines: seq<Line<Effect>>, commits: Markers, n: nat, i: nat)
    requires CommittedPrefix(s, lines, commits, n) && i < n
    ensures lines[i].Rec? && MarkerBound(s, commits, lines[i].value, i + 1)
  {
  }

  /** The committed list is determined: no journal is accepted at two different lengths. */
  lemma AcceptedLengthIsUnique(s: Source, lines: seq<Line<Effect>>, commits: Markers, n: nat, n': nat)
    requires CommittedPrefix(s, lines, commits, n) && CommittedPrefix(s, lines, commits, n')
    ensures n == n'
  {
    if n < n' {
      MarkedAt(s, lines, commits, n', n);
      assert false;
    } else if n' < n {
      MarkedAt(s, lines, commits, n, n');
      assert false;
    }
  }

  // ---- the two loops ----

  lemma NoIds(lines: seq<Line<Effect>>)
    ensures IdsOf(lines[..0]) == {} && DistinctIds(lines[..0]) && Values(lines[..0]) == []
  {
  }

  lemma NextId(lines: seq<Line<Effect>>, i: nat)
    requires i < |lines| && lines[i].Rec?
    ensures IdsOf(lines[..i + 1]) == IdsOf(lines[..i]) + {lines[i].value.actionId}
    ensures DistinctIds(lines[..i]) && lines[i].value.actionId !in IdsOf(lines[..i]) ==> DistinctIds(lines[..i + 1])
    ensures lines[i].value.actionId in IdsOf(lines[..i]) ==> !DistinctIds(lines)
  {
    var shorter, longer := lines[..i], lines[..i + 1];
    assert longer[i] == lines[i] && forall k :: 0 <= k < i ==> longer[k] == shorter[k] == lines[k];
    assert longer[i].value.actionId in IdsOf(longer);
    forall x | x in IdsOf(shorter) ensures x in IdsOf(longer) {
      var k :| 0 <= k < |shorter| && shorter[k].Rec? && shorter[k].value.actionId == x;
      assert longer[k].value.actionId == x;
    }
    forall x | x in IdsOf(longer) ensures x in IdsOf(shorter) + {lines[i].value.actionId} {
      var k :| 0 <= k < |longer| && longer[k].Rec? && longer[k].value.actionId == x;
      if k < i {
        assert shorter[k].value.actionId == x;
      }
    }
  }

  lemma OpenAddsNoId(lines: seq<Line<Effect>>, i: nat)
    requires i < |lines| && lines[i].Open?
    ensures IdsOf(lines[..i + 1]) == IdsOf(lines[..i])
    ensures DistinctIds(lines[..i]) ==> DistinctIds(lines[..i + 1])
  {
    var shorter, longer := lines[..i], lines[..i + 1];
    assert longer[i] == lines[i] && forall k :: 0 <= k < i ==> longer[k] == shorter[k] == lines[k];
    forall x | x in IdsOf(longer) ensures x in IdsOf(shorter) {
      var k :| 0 <= k < |longer| && longer[k].Rec? && longer[k].value.actionId == x;
      assert shorter[k].value.actionId == x;
    }
    forall x | x in IdsOf(shorter) ensures x in IdsOf(longer) {
      var k :| 0 <= k < |shorter| && shorter[k].Rec? && shorter[k].value.actionId == x;
      assert longer[k].value.actionId == x;
    }
  }

  /** What both loops know after reading the first i pieces, n of them committed. */
  ghost predicate ReadSoFar(s: Source, lines: seq<Line<Effect>>, commits: Markers, i: nat, n: nat) {
    && n <= i <= |lines|
    && (forall k :: 0 <= k < n ==> lines[k].Rec? && MarkerBound(s, commits, lines[k].value, k + 1))
    && (forall k :: n <= k < i ==> Unmarked(commits, lines[k]))
  }

  /** Behind an uncommitted record nothing is committed. */
  lemma MarkerBehindRecord(s: Source, lines: seq<Line<Effect>>, commits: Markers, i: nat, n: nat, n': nat)
    requires CommittedPrefix(s, lines, commits, n') && n < i < |lines|
    requires lines[n].Rec? && Unmarked(commits, lines[n])
    ensures Unmarked(commits, lines[i])
  {
    if i < n' {
      MarkedAt(s, lines, commits, n', n);
      assert false;
    }
  }

  lemma MarkerBindsOther(s: Source, lines: seq<Line<Effect>>, commits: Markers, i: nat, n': nat)
    requires CommittedPrefix(s, lines, commits, n') && i < |lines| && lines[i].Rec? && !Unmarked(commits, lines[i])
    ensures MarkerBound(s, commits, lines[i].value, i + 1)
  {
  }

  /** A marker past an uncommitted line, or one that binds something else, fits no committed prefix. */
  lemma MisplacedMarker(s: Source, lines: seq<Line<Effect>>, commits: Markers, i: nat, n: nat)
    requires ReadSoFar(s, lines, commits, i, n) && i < |lines| && lines[i].Rec? && !Unmarked(commits, lines[i])
    requires (n < i && lines[n].Rec?) || !MarkerBound(s, commits, lines[i].value, i + 1)
    ensures forall n' :: !CommittedPrefix(s, lines, commits, n')
  {
    hide CommittedPrefix;
    forall n': nat | CommittedPrefix(s, lines, commits, n') ensures false {
      MarkerBindsOther(s, lines, commits, i, n');
      if n < i && lines[n].Rec? {
        MarkerBehindRecord(s, lines, commits, i, n, n');
      }
    }
  }

  lemma ShorterPrefix(s: Source, lines: seq<Line<Effect>>, commits: Markers, n: nat, n': nat)
    requires ReadSoFar(s, lines, commits, |lines|, n) && CommittedPrefix(s, lines, commits, n')
    ensures n' == n
  {
    if n < n' {
      MarkedAt(s, lines, commits, n', n);
      assert false;
    } else if n' < n {
      SoFarMarked(s, lines, commits, n, n');
      assert false;
    }
  }

  lemma SoFarMarked(s: Source, lines: seq<Line<Effect>>, commits: Markers, n: nat, i: nat)
    requires ReadSoFar(s, lines, commits, |lines|, n) && i < n
    ensures lines[i].Rec? && MarkerBound(s, commits, lines[i].value, i + 1)
  {
  }

  /** With every line read, the marker inventory decides. */
  lemma InventoryDecides(s: Source, lines: seq<Line<Effect>>, commits: Markers, n: nat)
    requires ReadSoFar(s, lines, commits, |lines|, n)
    ensures commits.Keys == IdsOf(lines[..n]) ==> CommittedPrefix(s, lines, commits, n)
    ensures commits.Keys != IdsOf(lines[..n]) ==> forall n' :: !CommittedPrefix(s, lines, commits, n')
  {
    hide IdsOf;
    forall n': nat | CommittedPrefix(s, lines, commits, n') ensures commits.Keys == IdsOf(lines[..n]) {
      ShorterPrefix(s, lines, commits, n, n');
    }
  }

  /** What both loops carry: the committed records, every ID seen and the IDs of committed markers. */
  ghost predicate Carried(s: Source, lines: seq<Line<Effect>>, commits: Markers, i: nat, committed: seq<Effect>,
                          seen: set<string>, names: set<string>) {
    && ReadSoFar(s, lines, commits, i, |committed|)
    && seen == IdsOf(lines[..i]) && DistinctIds(lines[..i])
    && committed == Values(lines[..|committed|]) && names == IdsOf(lines[..|committed|])
  }

  lemma CarriedAtStart(s: Source, lines: seq<Line<Effect>>, commits: Markers)
    ensures Carried(s, lines, commits, 0, [], {}, {})
  {
    NoIds(lines);
  }

  lemma CarriedUnmarked(s: Source, lines: seq<Line<Effect>>, commits: Markers, i: nat, committed: seq<Effect>,
                        seen: set<string>, names: set<string>)
    requires Carried(s, lines, commits, i, committed, seen, names) && i < |lines| && lines[i].Rec?
    requires lines[i].value.actionId !in seen && lines[i].value.actionId !in commits
    ensures Carried(s, lines, commits, i + 1, committed, seen + {lines[i].value.actionId}, names)
  {
    hide IdsOf, DistinctIds, Values, MarkerBound;
    NextId(lines, i);
  }

  lemma CarriedMarked(s: Source, lines: seq<Line<Effect>>, commits: Markers, i: nat, committed: seq<Effect>,
                      seen: set<string>, names: set<string>)
    requires Carried(s, lines, commits, i, committed, seen, names) && i < |lines| && lines[i].Rec? && |committed| == i
    requires lines[i].value.actionId !in seen && MarkerBound(s, commits, lines[i].value, i + 1)
    ensures Carried(s, lines, commits, i + 1, committed + [lines[i].value], seen + {lines[i].value.actionId},
                    names + {lines[i].value.actionId})
  {
    hide IdsOf, DistinctIds, MarkerBound;
    NextId(lines, i);
    assert lines[..i + 1][..i] == lines[..i];
  }

  lemma CarriedOpen(s: Source, lines: seq<Line<Effect>>, commits: Markers, i: nat, committed: seq<Effect>,
                    seen: set<string>, names: set<string>)
    requires Carried(s, lines, commits, i, committed, seen, names) && i < |lines| && lines[i].Open?
    ensures Carried(s, lines, commits, i + 1, committed, seen, names)
  {
    hide IdsOf, DistinctIds, Values, MarkerBound;
    OpenAddsNoId(lines, i);
  }

  lemma CarriedFacts(s: Source, lines: seq<Line<Effect>>, commits: Markers, i: nat, committed: seq<Effect>,
                     seen: set<string>, names: set<string>)
    requires Carried(s, lines, commits, i, committed, seen, names)
    ensures ReadSoFar(s, lines, commits, i, |committed|)
    ensures i < |lines| && lines[i].Rec? && lines[i].value.actionId in seen ==> !DistinctIds(lines)
    ensures |committed| <= i <= |lines| && committed == Values(lines[..|committed|])
  {
    hide IdsOf, DistinctIds, Values, MarkerBound;
    if i < |lines| && lines[i].Rec? {
      NextId(lines, i);
    }
  }

  lemma CarriedToEnd(s: Source, lines: seq<Line<Effect>>, commits: Markers, committed: seq<Effect>,
                     seen: set<string>, names: set<string>)
    requires Carried(s, lines, commits, |lines|, committed, seen, names)
    ensures commits.Keys == names ==> CommittedPrefix(s, lines, commits, |committed|)
    ensures commits.Keys != names ==> forall n :: !CommittedPrefix(s, lines, commits, n)
    ensures DistinctIds(lines)
  {
    hide IdsOf, DistinctIds, Values, MarkerBound, CommittedPrefix, ReadSoFar;
    assert lines[..|lines|] == lines;
    InventoryDecides(s, lines, commits, |committed|);
  }

  /** `_effect_journal_state`. */
  method ReadEffectJournal(s: Source, lines: seq<Line<Effect>>, commits: Markers) returns (r: Result<ReadState>)
    ensures r.Ok? ==> AdapterAccepts(s, lines, commits, |r.value.committed|)
    ensures r.Ok? ==> |r.value.committed| <= |lines| && r.value.committed == Values(lines[..|r.value.committed|])
                      && r.value.suffix == lines[|r.value.committed|..]
    ensures r.Err? ==> forall n :: !AdapterAccepts(s, lines, commits, n)
  {
    hide CommittedPrefix, DistinctIds, MarkerFor, Carried, Values, ReadSoFar;
    ghost var k := FirstOpen(lines);
    FirstOpenBound(lines);
    ghost var head := lines[..k];
    CarriedAtStart(s, head, commits);
    var committed: seq<Effect> := [];
    var suffixStarted := false;
    var seen: set<string>, names: set<string> := {}, {};
    var i := 0;
    while i < |lines| && !lines[i].Open?
      invariant 0 <= i <= k
      invariant forall p :: 0 <= p < i ==> Fits(s, lines[p])
      invariant Carried(s, head, commits, i, committed, seen, names) && suffixStarted == (|committed| < i)
      decreases |lines| - i
    {
      if !Fits(s, lines[i]) {
        return Err(Control);
      }
      var e := lines[i].value;
      assert head[i] == lines[i];
      CarriedFacts(s, head, commits, i, committed, seen, names);
      if e.actionId in seen {
        return Err(Control);
      }
      if e.actionId !in commits {
        CarriedUnmarked(s, head, commits, i, committed, seen, names);
        suffixStarted := true;
      } else if suffixStarted || !MarkerBound(s, commits, e, i + 1) {
        RefusedByAdapter(s, head, commits, i, |committed|);
        return Err(Control);
      } else {
        CarriedMarked(s, head, commits, i, committed, seen, names);
        committed := committed + [e];
        names := names + {e.actionId};
      }
      seen := seen + {e.actionId};
      i := i + 1;
    }
    CarriedFacts(s, head, commits, k, committed, seen, names);
    CarriedToEnd(s, head, commits, committed, seen, names);
    assert head[..|committed|] == lines[..|committed|];
    if commits.Keys != names {
      return Err(Control);
    }
    return Ok(ReadState(committed, lines[|committed|..]));
  }

  /** `read_committed_effects`. */
  method ReadCommittedEffects(s: Source, lines: seq<Line<Effect>>, commits: Markers) returns (r: Result<seq<Effect>>)
    ensures r.Ok? ==> VerifierAccepts(s, lines, commits, |r.value|)
    ensures r.Ok? ==> |r.value| <= |lines| && r.value == Values(lines[..|r.value|])
    ensures r.Err? ==> forall n :: !VerifierAccepts(s, lines, commits, n)
  {
    hide CommittedPrefix, DistinctIds, MarkerFor, Carried, Values, ReadSoFar;
    FirstOpenBound(lines);
    CarriedAtStart(s, lines, commits);
    var committed: seq<Effect> := [];
    var suffixStarted := false;
    var seen: set<string>, names: set<string> := {}, {};
    var i := 0;
    while i < |lines|
      invariant 0 <= i <= |lines|
      invariant forall p :: 0 <= p < i ==> lines[p].Open? || Fits(s, lines[p])
      invariant Carried(s, lines, commits, i, committed, seen, names) && suffixStarted == (|committed| < i)
      invariant |committed| <= FirstOpen(lines)
    {
      if lines[i].Open? {
        CarriedOpen(s, lines, commits, i, committed, seen, names);
        suffixStarted := true;
      } else if !Fits(s, lines[i]) {
        return Err(Control);
      } else {
        var e := lines[i].value;
        CarriedFacts(s, lines, commits, i, committed, seen, names);
        if e.actionId in seen {
          return Err(Control);
        }
        if e.actionId !in commits {
          CarriedUnmarked(s, lines, commits, i, committed, seen, names);
          suffixStarted := true;
        } else if suffixStarted || !MarkerBound(s, commits, e, i + 1) {
          RefusedByVerifier(s, lines, commits, i, |committed|);
          return Err(Control);
        } else {
          CarriedMarked(s, lines, commits, i, committed, seen, names);
          committed := committed + [e];
          names := names + {e.actionId};
        }
        seen := seen + {e.actionId};
      }
      i := i + 1;
    }
    CarriedFacts(s, lines, commits, i, committed, seen, names);
    CarriedToEnd(s, lines, commits, committed, seen, names);
    if commits.Keys != names {
      return Err(Control);
    }
    return Ok(committed);
  }

  lemma RefusedByAdapter(s: Source, head: seq<Line<Effect>>, commits: Markers, i: nat, n: nat)
    requires ReadSoFar(s, head, commits, i, n) && i < |head| && head[i].Rec? && !Unmarked(commits, head[i])
    requires n < i || !MarkerBound(s, commits, head[i].value, i + 1)
    requires forall p :: 0 <= p <= i ==> head[p].Rec?
    ensures forall n' :: !CommittedPrefix(s, head, commits, n')
  {
    MisplacedMarker(s, head, commits, i, n);
  }

  lemma RefusedByVerifier(s: Source, lines: seq<Line<Effect>>, commits: Markers, i: nat, n: nat)
    requires ReadSoFar(s, lines, commits, i, n) && i < |lines| && lines[i].Rec? && !Unmarked(commits, lines[i])
    requires n < i || !MarkerBound(s, commits, lines[i].value, i + 1)
    requires forall p :: 0 <= p < i ==> lines[p].Open? || lines[p].Rec?
    ensures forall n' :: !VerifierAccepts(s, lines, commits, n')
  {
    hide CommittedPrefix, MarkerBound;
    if (n < i && lines[n].Rec?) || !MarkerBound(s, commits, lines[i].value, i + 1) {
      MisplacedMarker(s, lines, commits, i, n);
    } else {
      MarkerBehindOpen(s, lines, commits, i, n);
    }
  }

  /** A marker behind a torn piece fits no prefix that ends before the piece. */
  lemma MarkerBehindOpen(s: Source, lines: seq<Line<Effect>>, commits: Markers, i: nat, n: nat)
    requires n < i < |lines| && lines[n].Open? && !Unmarked(commits, lines[i])
    ensures forall n' :: !VerifierAccepts(s, lines, commits, n')
  {
    FirstOpenBound(lines);
    assert FirstOpen(lines) <= n;
  }

  // ---- the two readers compared ----

  /** Nothing after a piece without LF but more such pieces, or this source's records under IDs used once. */
  ghost predicate QuietTail(s: Source, lines: seq<Line<Effect>>) {
    forall j :: FirstOpen(lines) <= j < |lines|
      ==> lines[j].Open? || (Fits(s, lines[j]) && UsedOnce(lines, j))
  }

  ghost predicate UsedOnce(lines: seq<Line<Effect>>, j: nat)
    requires j < |lines| && lines[j].Rec?
  {
    forall i :: 0 <= i < |lines| && i != j && lines[i].Rec? ==> lines[i].value.actionId != lines[j].value.actionId
  }

  /**
   * Two-reader equivalence, exactly: over every piece list and marker map the verifier accepts a committed prefix
   * if and only if the adapter accepts the same one and nothing but quiet pieces follows the first torn piece.
   */
  lemma ReadersAgree(s: Source, lines: seq<Line<Effect>>, commits: Markers, n: nat)
    ensures VerifierAccepts(s, lines, commits, n) <==> AdapterAccepts(s, lines, commits, n) && QuietTail(s, lines)
  {
    var k := FirstOpen(lines);
    FirstOpenBound(lines);
    if n <= k {
      assert lines[..k][..n] == lines[..n];
    }
    if AdapterAccepts(s, lines, commits, n) && QuietTail(s, lines) {
      AdapterPlusQuiet(s, lines, commits, n);
    }
    if VerifierAccepts(s, lines, commits, n) {
      assert forall i :: 0 <= i < k ==> lines[..k][i] == lines[i];
    }
  }

  lemma QuietIdIsNew(lines: seq<Line<Effect>>, n: nat, i: nat)
    requires n <= i < |lines| && lines[i].Rec? && UsedOnce(lines, i)
    ensures lines[i].value.actionId !in IdsOf(lines[..n])
  {
    assert forall p :: 0 <= p < n ==> lines[..n][p] == lines[p];
  }

  lemma AdapterPlusQuiet(s: Source, lines: seq<Line<Effect>>, commits: Markers, n: nat)
    requires AdapterAccepts(s, lines, commits, n) && QuietTail(s, lines)
    ensures VerifierAccepts(s, lines, commits, n)
  {
    var k := FirstOpen(lines);
    FirstOpenBound(lines);
    var head := lines[..k];
    assert head[..n] == lines[..n];
    assert forall i :: 0 <= i < k ==> head[i] == lines[i];
    forall i | n <= i < |lines| ensures Unmarked(commits, lines[i]) {
      if i < k {
        assert Unmarked(commits, head[i]);
      } else if lines[i].Rec? {
        QuietIdIsNew(lines, n, i);
      }
    }
    forall i, j | 0 <= i < j < |lines| && lines[i].Rec? && lines[j].Rec?
      ensures lines[i].value.actionId != lines[j].value.actionId
    {
      if j < k {
        assert head[i].value.actionId != head[j].value.actionId;
      } else {
        assert UsedOnce(lines, j);
      }
    }
  }

  /** A journal written by appends has at most one torn piece, its last; on those the readers always agree. */
  lemma ReadersAgreeOnAppendedJournals(s: Source, lines: seq<Line<Effect>>, commits: Markers, n: nat)
    requires FirstOpen(lines) >= |lines| - 1
    ensures VerifierAccepts(s, lines, commits, n) <==> AdapterAccepts(s, lines, commits, n)
  {
    hide VerifierAccepts, AdapterAccepts;
    FirstOpenBound(lines);
    ReadersAgree(s, lines, commits, n);
  }

  // ---- what acceptance is worth ----

  /** The record came from this source, stands at its number, and a marker names its content, number and source. */
  predicate IsAttested(s: Source, commits: Markers, e: Effect, position: int) {
    && e.source == s && e.sequence == position && e.actionId in commits
    && var marker := commits[e.actionId];
    && marker.actionId == e.actionId && marker.digest == OfEffect(e) && marker.sequence == position
    && marker.source == s
  }

  /**
   * Whatever a journal and its marker directory hold, what either reader takes as committed is one record per action,
   * each attested at its own number, and every marker belongs to one of them.
   */
  lemma AcceptedIsAttested(s: Source, lines: seq<Line<Effect>>, commits: Markers, n: nat)
    requires AdapterAccepts(s, lines, commits, n) || VerifierAccepts(s, lines, commits, n)
    ensures n <= |lines|
    ensures forall i :: 0 <= i < n ==> lines[i].Rec? && IsAttested(s, commits, lines[i].value, i + 1)
    ensures forall i, j :: 0 <= i < j < n ==> lines[i].value.actionId != lines[j].value.actionId
    ensures forall id :: id in commits ==> exists i :: 0 <= i < n && lines[i].value.actionId == id
  {
    var k := FirstOpen(lines);
    FirstOpenBound(lines);
    var head := if AdapterAccepts(s, lines, commits, n) then lines[..k] else lines;
    assert forall i :: 0 <= i < |head| ==> head[i] == lines[i];
    forall i | 0 <= i < n ensures lines[i].Rec? && IsAttested(s, commits, lines[i].value, i + 1) {
      MarkedAt(s, head, commits, n, i);
    }
    forall id | id in commits ensures exists i :: 0 <= i < n && lines[i].value.actionId == id {
      assert id in IdsOf(head[..n]);
      var i :| 0 <= i < n && head[..n][i].Rec? && head[..n][i].value.actionId == id;
      assert lines[i].value.actionId == id;
    }
  }
}
