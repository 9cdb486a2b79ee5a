/** What the active and invalidated inventories of a projection are, read off the event list alone. */
module RevisionIsolation {
  import opened Results
  import opened Workflow
  import opened Records
  import opened Ledger
  import opened WorkflowPaths

  /** The last link recorded under a key since the latest revision event. */
  function LastLink(events: seq<Event>, key: LinkKey): Option<string> {
    if events == [] then
      None
    else
      var e := events[|events| - 1].body;
      if key in e.links then Some(e.links[key])
      else if IsRevision(e.eventType) then None
      else LastLink(events[..|events| - 1], key)
  }

  /** The links in force after these events. */
  ghost predicate InForce(active: Links, events: seq<Event>) {
    forall key :: if IsTracked(key) && LastLink(events, key).Some?
                  then key in active && active[key] == LastLink(events, key).value
                  else key !in active
  }

  /** The six kinds of object a revision retires. */
  predicate IsTracked(key: LinkKey) {
    || key == RecommendationId || key == ApprovalId || key == ActionId
    || key == VerificationId || key == CommunicationId || key == ClosureId
  }

  lemma ActiveAdvances(m: Manifest, snaps: Snapshots, r: Replay, position: int, e: Event)
    requires Advance(m, snaps, r, position, e).Ok?
    ensures Advance(m, snaps, r, position, e).value.active
            == (if IsRevision(e.body.eventType) then map[] else r.active) + ObjectLinks(e.body.links)
  {
    hide ApplyEvent, SortedValues, LoadBatch, ClaimedInvalidations, ObjectLinks;
  }

  lemma TrackedAreObjects(links: Links, key: LinkKey)
    ensures key in ObjectLinks(links) <==> key in links && IsTracked(key)
    ensures key in ObjectLinks(links) ==> ObjectLinks(links)[key] == links[key]
  {
  }

  /** Backwards search against forwards replay. */
  lemma {:induction false} ActiveIsLastLink(m: Manifest, snaps: Snapshots, events: seq<Event>)
    requires Fold(m, snaps, events).Ok?
    ensures InForce(Fold(m, snaps, events).value.active, events)
  {
    hide Advance, ObjectLinks, IsTracked;
    if events != [] {
      var prefix, e := events[..|events| - 1], events[|events| - 1];
      ActiveIsLastLink(m, snaps, prefix);
      var r := Fold(m, snaps, prefix).value;
      ActiveAdvances(m, snaps, r, |events|, e);
      forall key ensures key in ObjectLinks(e.body.links) <==> key in e.body.links && IsTracked(key)
                 ensures key in ObjectLinks(e.body.links) ==> ObjectLinks(e.body.links)[key] == e.body.links[key]
      {
        TrackedAreObjects(e.body.links, key);
      }
    }
  }

  /** For each revision of the run, in order, the sorted inventory that was active when it struck. */
  ghost predicate RetiredInOrder(invalidated: seq<string>, events: seq<Event>)
    decreases |events|
  {
    if events == [] then
      invalidated == []
    else
      var prefix := events[..|events| - 1];
      if IsRevision(events[|events| - 1].body.eventType) then
        exists before, active :: InForce(active, prefix) && RetiredInOrder(before, prefix)
                                 && invalidated == before + SortedValues(active)
      else
        RetiredInOrder(invalidated, prefix)
  }

  lemma {:induction false} InvalidatedIsRetired(m: Manifest, snaps: Snapshots, events: seq<Event>)
    requires Fold(m, snaps, events).Ok?
    ensures RetiredInOrder(Fold(m, snaps, events).value.invalidated, events)
  {
    if events != [] {
      var prefix := events[..|events| - 1];
      InvalidatedIsRetired(m, snaps, prefix);
      ActiveIsLastLink(m, snaps, prefix);
      var r := Fold(m, snaps, prefix).value;
      NothingToSort();
      RevisionRetires(m, snaps, r, |events|, events[|events| - 1]);
      hide Advance;
      assert InForce(r.active, prefix) && RetiredInOrder(r.invalidated, prefix);
    }
  }

  lemma NothingToSort()
    ensures SortedValues(map[]) == []
  {
    assert ValuesAt(map[], OBJECT_KEYS) == [];
  }

  lemma RevisionRetires(m: Manifest, snaps: Snapshots, r: Replay, position: int, e: Event)
    requires Advance(m, snaps, r, position, e).Ok? && SortedValues(map[]) == []
    ensures Advance(m, snaps, r, position, e).value.invalidated
            == (if IsRevision(e.body.eventType) then r.invalidated + SortedValues(r.active) else r.invalidated)
  {
    hide SortedValues, ApplyEvent;
  }

  /** A link in force was recorded by an event of the current revision. */
  lemma {:induction false} LinkComesFromSegment(events: seq<Event>, key: LinkKey)
    requires LastLink(events, key).Some?
    ensures exists i :: SegmentStart(events) <= i < |events| && key in events[i].body.links
                        && events[i].body.links[key] == LastLink(events, key).value
  {
    StartInRange(events);
    var e := events[|events| - 1].body;
    if key !in e.links {
      var prefix := events[..|events| - 1];
      LinkComesFromSegment(prefix, key);
      var i :| SegmentStart(prefix) <= i < |prefix| && key in prefix[i].body.links
               && prefix[i].body.links[key] == LastLink(prefix, key).value;
      assert events[i] == prefix[i];
    }
  }

  /** Some event of the current revision linked this object under this key. */
  ghost predicate LinkedThisRevision(events: seq<Event>, key: LinkKey, id: string) {
    exists i :: SegmentStart(events) <= i < |events| && key in events[i].body.links && events[i].body.links[key] == id
  }

  /** Every active object was linked since the last revision. */
  lemma ActiveIsFromThisRevision(m: Manifest, snaps: Snapshots, events: seq<Event>, key: LinkKey)
    requires Fold(m, snaps, events).Ok? && key in Fold(m, snaps, events).value.active
    ensures LinkedThisRevision(events, key, Fold(m, snaps, events).value.active[key])
  {
    hide Fold;
    ActiveIsLastLink(m, snaps, events);
    LinkComesFromSegment(events, key);
  }

  // ---- the inventory is sorted and complete ----

  predicate LessAt(a: string, b: string, i: nat) {
    i < |a| && i < |b| && a[..i] == b[..i] && a[i] < b[i]
  }

  lemma LessAtShifts(a: string, b: string, i: nat)
    requires a != [] && b != [] && a[0] == b[0]
    ensures LessAt(a, b, i + 1) <==> LessAt(a[1..], b[1..], i)
    ensures !LessAt(a, b, 0)
  {
    if i + 1 <= |a| && i + 1 <= |b| {
      assert a[..i + 1] == [a[0]] + a[1..][..i] && b[..i + 1] == [b[0]] + b[1..][..i];
      assert a[..i + 1][1..] == a[1..][..i] && b[..i + 1][1..] == b[1..][..i];
    }
  }

  /** The order is that of the first character in which two strings differ; a string follows its own beginnings. */
  lemma {:induction false} OrderIsByFirstDifference(a: string, b: string)
    ensures StringLe(a, b) <==> a <= b || exists i: nat :: LessAt(a, b, i)
  {
    if a != [] && b != [] && a[0] == b[0] {
      OrderIsByFirstDifference(a[1..], b[1..]);
      assert a == [a[0]] + a[1..] && b == [b[0]] + b[1..];
      forall i: nat ensures LessAt(a, b, i + 1) <==> LessAt(a[1..], b[1..], i) {
        LessAtShifts(a, b, i);
      }
      hide LessAt;
      if i: nat :| LessAt(a, b, i) {
        LessAtShifts(a, b, 0);
        assert LessAt(a[1..], b[1..], i - 1);
      }
    } else if a != [] && b != [] && a[0] < b[0] {
      assert LessAt(a, b, 0);
    }
  }

  lemma {:induction false} OrderIsTotal(a: string, b: string)
    ensures StringLe(a, b) || StringLe(b, a)
  {
    if a != [] && b != [] && a[0] == b[0] {
      OrderIsTotal(a[1..], b[1..]);
    }
  }

  predicate Ascending(xs: seq<string>) {
    |xs| < 2 || (StringLe(xs[0], xs[1]) && Ascending(xs[1..]))
  }

  lemma {:induction false} InsertKeeps(x: string, xs: seq<string>)
    requires Ascending(xs)
    ensures Ascending(Insert(x, xs)) && multiset(Insert(x, xs)) == multiset(xs) + multiset{x}
    ensures Insert(x, xs)[0] == (if xs == [] || StringLe(x, xs[0]) then x else xs[0])
  {
    if xs == [] || StringLe(x, xs[0]) {
      assert ([x] + xs)[1..] == xs;
    } else {
      assert xs == [xs[0]] + xs[1..];
      OrderIsTotal(x, xs[0]);
      InsertKeeps(x, xs[1..]);
      assert ([xs[0]] + Insert(x, xs[1..]))[1..] == Insert(x, xs[1..]);
    }
  }

  /** Sorting orders by code point and loses and invents nothing. */
  lemma {:induction false} SortIsOrderedPermutation(xs: seq<string>)
    ensures Ascending(Sort(xs)) && multiset(Sort(xs)) == multiset(xs)
  {
    if xs != [] {
      SortIsOrderedPermutation(xs[1..]);
      InsertKeeps(xs[0], Sort(xs[1..]));
      assert xs == [xs[0]] + xs[1..];
    }
  }

  lemma {:induction false} ValuesAtKeys(links: Links, keys: seq<LinkKey>, v: string)
    ensures v in ValuesAt(links, keys) <==> exists i :: 0 <= i < |keys| && keys[i] in links && links[keys[i]] == v
  {
    if keys != [] {
      ValuesAtKeys(links, keys[1..], v);
      assert forall i :: 1 <= i < |keys| ==> keys[i] == keys[1..][i - 1];
    }
  }

  /** The invalidation inventory lists every active object, in order, and nothing else. */
  lemma InventoryIsComplete(active: Links, v: string)
    requires forall k :: k in active ==> IsObjectKey(k)
    ensures Ascending(SortedValues(active))
    ensures v in SortedValues(active) <==> exists k :: k in active && active[k] == v
  {
    var values := ValuesAt(active, OBJECT_KEYS);
    SortIsOrderedPermutation(values);
    ValuesAtKeys(active, OBJECT_KEYS, v);
    assert v in values <==> v in multiset(values);
    assert v in Sort(values) <==> v in multiset(Sort(values));
    if k :| k in active && active[k] == v {
      assert OBJECT_KEYS == [RecommendationId, ApprovalId, ActionId, VerificationId, CommunicationId, ClosureId];
      var i := match k case RecommendationId => 0 case ApprovalId => 1 case ActionId => 2
                       case VerificationId => 3 case CommunicationId => 4 case _ => 5;
      assert OBJECT_KEYS[i] == k;
    }
  }
}
