/** The batched Git object stream: one header line, the raw payload and an LF per requested object. */
module ObjectStream {
  import opened Results
  import opened Bytes

  datatype TreeEntry = TreeEntry(path: string, objectId: seq<byte>)

  type Payloads = map<string, seq<byte>>

  const SPACE: byte := 32
  const BLOB: seq<byte> := [98, 108, 111, 98]

  // ---- header fields ----

  predicate IsBlank(b: byte) {
    9 <= b <= 13 || b == SPACE
  }

  function WordLength(s: seq<byte>): (n: nat)
    ensures n <= |s| && (forall i :: 0 <= i < n ==> !IsBlank(s[i])) && (n < |s| ==> IsBlank(s[n]))
  {
    if s == [] || IsBlank(s[0]) then 0
    else
      var n := WordLength(s[1..]);
      assert forall i :: 1 <= i < n + 1 ==> s[i] == s[1..][i - 1];
      1 + n
  }

  /** Splitting on runs of blanks. */
  function Words(s: seq<byte>): seq<seq<byte>>
    decreases |s|
  {
    if s == [] then []
    else if IsBlank(s[0]) then Words(s[1..])
    else [s[..WordLength(s)]] + Words(s[WordLength(s)..])
  }

  predicate IsWord(w: seq<byte>) {
    w != [] && forall i :: 0 <= i < |w| ==> !IsBlank(w[i])
  }

  predicate IsDigits(w: seq<byte>) {
    w != [] && forall i :: 0 <= i < |w| ==> 48 <= w[i] <= 57
  }

  function Number(w: seq<byte>): int {
    if w == [] then 0 else Number(w[..|w| - 1]) * 10 + (w[|w| - 1] as int - 48)
  }

  function Decimal(n: nat): seq<byte> {
    if n < 10 then [(48 + n) as byte] else Decimal(n / 10) + [(48 + n % 10) as byte]
  }

  lemma {:induction false} DecimalReads(n: nat)
    ensures IsDigits(Decimal(n)) && Number(Decimal(n)) == n
  {
    if n < 10 {
      assert Decimal(n)[..0] == [];
    } else {
      DecimalReads(n / 10);
      assert Decimal(n)[..|Decimal(n)| - 1] == Decimal(n / 10);
    }
  }

  lemma FirstWord(w: seq<byte>, rest: seq<byte>)
    requires IsWord(w) && (rest == [] || IsBlank(rest[0]))
    ensures Words(w + rest) == [w] + Words(rest)
  {
    var all := w + rest;
    var n := WordLength(all);
    assert forall i :: 0 <= i < |w| ==> all[i] == w[i];
    assert rest != [] ==> all[|w|] == rest[0];
    assert all[..n] == w && all[n..] == rest;
  }

  lemma BlankSkipped(rest: seq<byte>)
    ensures Words([SPACE] + rest) == Words(rest)
  {
    assert ([SPACE] + rest)[1..] == rest;
  }

  // ---- the stream ----

  function HeaderFor(objectId: seq<byte>, size: nat): seq<byte> {
    objectId + ([SPACE] + (BLOB + ([SPACE] + Decimal(size))))
  }

  function FrameObject(objectId: seq<byte>, content: seq<byte>): seq<byte> {
    HeaderFor(objectId, |content|) + ([LF] + (content + [LF]))
  }

  function FrameObjects(entries: seq<TreeEntry>, contents: seq<seq<byte>>): seq<byte>
    requires |entries| == |contents|
  {
    if entries == [] then []
    else FrameObject(entries[0].objectId, contents[0]) + FrameObjects(entries[1..], contents[1..])
  }

  /** The size a header announces, if it is the header of this object. */
  function SizeIn(header: seq<byte>, objectId: seq<byte>): Option<int> {
    var words := Words(header);
    if |words| != 3 || words[0] != objectId || words[1] != BLOB || !IsDigits(words[2]) then None
    else Some(Number(words[2]))
  }

  function ParseStream(entries: seq<TreeEntry>, rest: seq<byte>, payloads: Payloads): Result<Payloads> {
    if entries == [] then
      if rest == [] then Ok(payloads) else Err(Control)
    else
      var n := FindLf(rest);
      if n == |rest| then Err(Control)
      else
        var size, body := SizeIn(rest[..n], entries[0].objectId), rest[n + 1..];
        if size.None? || size.value < 0 || size.value >= |body| || body[size.value] != LF then Err(Control)
        else if entries[0].path in payloads then Err(Control)
        else ParseStream(entries[1..], body[size.value + 1..], payloads[entries[0].path := body[..size.value]])
  }

  lemma {:induction false} NumberIsNatural(w: seq<byte>)
    requires forall i :: 0 <= i < |w| ==> 48 <= w[i] <= 57
    ensures Number(w) >= 0
  {
    if w != [] {
      NumberIsNatural(w[..|w| - 1]);
    }
  }

  lemma SizesAreNatural(header: seq<byte>, objectId: seq<byte>)
    ensures SizeIn(header, objectId).Some? ==> SizeIn(header, objectId).value >= 0
  {
    if SizeIn(header, objectId).Some? {
      NumberIsNatural(Words(header)[2]);
    }
  }

  lemma SuffixOfSuffix(s: seq<byte>, i: nat, k: nat)
    requires i + k <= |s|
    ensures s[i..][k..] == s[i + k..]
  {
  }

  /** One object of the stream. */
  lemma ObjectStep(entries: seq<TreeEntry>, i: nat, rest: seq<byte>, payloads: Payloads)
    requires i < |entries|
    ensures var n := FindLf(rest);
            var now := ParseStream(entries[i..], rest, payloads);
            if n == |rest| || SizeIn(rest[..n], entries[i].objectId).None? then now == Err(Control)
            else
              var size, body := SizeIn(rest[..n], entries[i].objectId).value, rest[n + 1..];
              && size >= 0
              && (if size >= |body| || body[size] != LF || entries[i].path in payloads then now == Err(Control)
                  else now == ParseStream(entries[i + 1..], body[size + 1..],
                                          payloads[entries[i].path := body[..size]]))
  {
    hide SizeIn, FindLf;
    var n := FindLf(rest);
    assert entries[i..][0] == entries[i] && entries[i..][1..] == entries[i + 1..];
    if n < |rest| {
      SizesAreNatural(rest[..n], entries[i].objectId);
    }
  }

  /** The cursor loop of `_commit_payloads`. */
  method CommitPayloads(entries: seq<TreeEntry>, stream: seq<byte>) returns (r: Result<Payloads>)
    ensures r == ParseStream(entries, stream, map[])
  {
    hide SizeIn, FindLf, ParseStream;
    var cursor := 0;
    var payloads: Payloads := map[];
    assert stream[0..] == stream && entries[0..] == entries;
    for i := 0 to |entries|
      invariant 0 <= cursor <= |stream|
      invariant ParseStream(entries, stream, map[]) == ParseStream(entries[i..], stream[cursor..], payloads)
    {
      var rest := stream[cursor..];
      ObjectStep(entries, i, rest, payloads);
      var headerEnd := FindLf(rest);
      if headerEnd == |rest| {
        return Err(Control);
      }
      var size := SizeIn(rest[..headerEnd], entries[i].objectId);
      if size.None? {
        return Err(Control);
      }
      var body := rest[headerEnd + 1..];
      if size.value >= |body| || body[size.value] != LF {
        return Err(Control);
      }
      if entries[i].path in payloads {
        return Err(Control);
      }
      payloads := payloads[entries[i].path := body[..size.value]];
      SuffixOfSuffix(stream, cursor, headerEnd + 1);
      SuffixOfSuffix(stream, cursor + headerEnd + 1, size.value + 1);
      cursor := cursor + headerEnd + 1 + size.value + 1;
    }
    StreamEnds(entries[|entries|..], stream[cursor..], payloads);
    if cursor != |stream| {
      return Err(Control);
    }
    return Ok(payloads);
  }

  lemma StreamEnds(entries: seq<TreeEntry>, rest: seq<byte>, payloads: Payloads)
    requires entries == []
    ensures ParseStream(entries, rest, payloads) == if rest == [] then Ok(payloads) else Err(Control)
  {
  }

  // ---- round trip ----

  lemma HeaderReads(objectId: seq<byte>, size: nat)
    requires IsWord(objectId)
    ensures SizeIn(HeaderFor(objectId, size), objectId) == Some(size)
    ensures forall i :: 0 <= i < |HeaderFor(objectId, size)| ==> HeaderFor(objectId, size)[i] != LF
  {
    hide Words, Number, Decimal;
    DecimalReads(size);
    var digits := Decimal(size);
    FirstWord(objectId, [SPACE] + (BLOB + ([SPACE] + digits)));
    BlankSkipped(BLOB + ([SPACE] + digits));
    FirstWord(BLOB, [SPACE] + digits);
    BlankSkipped(digits);
    FirstWord(digits, []);
    assert digits + [] == digits && Words([]) == [] by {
      NoWords();
    }
  }

  lemma NoWords()
    ensures Words([]) == []
  {
  }

  lemma ObjectReads(e: TreeEntry, content: seq<byte>, rest: seq<byte>, entries: seq<TreeEntry>, payloads: Payloads)
    requires IsWord(e.objectId) && e.path !in payloads
    ensures ParseStream([e] + entries, FrameObject(e.objectId, content) + rest, payloads)
            == ParseStream(entries, rest, payloads[e.path := content])
  {
    hide SizeIn, HeaderFor, IsWord;
    var header := HeaderFor(e.objectId, |content|);
    HeaderReads(e.objectId, |content|);
    var line, body := header + [LF], (content + [LF]) + rest;
    assert FrameObject(e.objectId, content) + rest == line + body;
    LineIsFound(line, body);
    assert (line + body)[..|header|] == header;
    assert body[..|content|] == content && body[|content|] == LF && body[|content| + 1..] == rest;
    assert ([e] + entries)[1..] == entries;
  }

  function PayloadsOf(entries: seq<TreeEntry>, contents: seq<seq<byte>>, payloads: Payloads): Payloads
    requires |entries| == |contents|
  {
    if entries == [] then payloads
    else PayloadsOf(entries[1..], contents[1..], payloads[entries[0].path := contents[0]])
  }

  ghost predicate FreshPaths(entries: seq<TreeEntry>, payloads: Payloads) {
    && (forall i :: 0 <= i < |entries| ==> entries[i].path !in payloads)
    && (forall i, j :: 0 <= i < j < |entries| ==> entries[i].path != entries[j].path)
  }

  /** What Git prints for the listed blobs is read back, payload bytes and embedded newlines included. */
  lemma {:induction false} ObjectsReadBack(entries: seq<TreeEntry>, contents: seq<seq<byte>>, payloads: Payloads)
    requires |entries| == |contents| && FreshPaths(entries, payloads)
    requires forall i :: 0 <= i < |entries| ==> IsWord(entries[i].objectId)
    ensures ParseStream(entries, FrameObjects(entries, contents), payloads)
            == Ok(PayloadsOf(entries, contents, payloads))
  {
    hide FrameObject, IsWord;
    if entries != [] {
      var more := payloads[entries[0].path := contents[0]];
      assert entries == [entries[0]] + entries[1..];
      ObjectReads(entries[0], contents[0], FrameObjects(entries[1..], contents[1..]), entries[1..], payloads);
      assert FreshPaths(entries[1..], more) by {
        assert forall i :: 0 <= i < |entries[1..]| ==> entries[1..][i] == entries[i + 1];
      }
      ObjectsReadBack(entries[1..], contents[1..], more);
    }
  }

  // ---- prefix freedom ----

  lemma LongerBody(body: seq<byte>, more: seq<byte>, size: nat)
    requires size < |body|
    ensures (body + more)[..size] == body[..size] && (body + more)[size + 1..] == body[size + 1..] + more
    ensures (body + more)[size] == body[size]
  {
  }

  /** For a fixed list of objects, an accepted stream followed by anything is refused. */
  lemma {:induction false} AcceptedObjectsEnd(entries: seq<TreeEntry>, rest: seq<byte>, more: seq<byte>,
                                              payloads: Payloads)
    requires ParseStream(entries, rest, payloads).Ok?
    ensures ParseStream(entries, rest + more, payloads).Ok? <==> more == []
  {
    hide SizeIn, FindLf, ParseStream;
    if entries == [] {
      StreamEnds(entries, rest, payloads);
      StreamEnds(entries, rest + more, payloads);
    } else {
      assert entries[0..] == entries;
      ObjectStep(entries, 0, rest, payloads);
      ObjectStep(entries, 0, rest + more, payloads);
      var n := FindLf(rest);
      SameFirstLine(rest, more);
      assert (rest + more)[..n] == rest[..n];
      var size, body := SizeIn(rest[..n], entries[0].objectId).value, rest[n + 1..];
      LongerBody(body, more, size);
      AcceptedObjectsEnd(entries[1..], body[size + 1..], more, payloads[entries[0].path := body[..size]]);
    }
  }

  lemma ObjectStreamsArePrefixFree(entries: seq<TreeEntry>, a: seq<byte>, b: seq<byte>)
    requires ParseStream(entries, a, map[]).Ok? && ParseStream(entries, b, map[]).Ok? && a <= b
    ensures a == b
  {
    AcceptedObjectsEnd(entries, a, b[|a|..], map[]);
    assert a + b[|a|..] == b;
  }

  // ---- what an accepted stream is made of ----

  /** Header fields, payload and line ends of one object: its ID, the word blob, and the payload's own length. */
  predicate IsObject(objectId: seq<byte>, header: seq<byte>, content: seq<byte>) {
    && (forall i :: 0 <= i < |header| ==> header[i] != 10)
    && |Words(header)| == 3 && Words(header)[0] == objectId && Words(header)[1] == [98, 108, 111, 98]
    && IsDigits(Words(header)[2]) && Number(Words(header)[2]) == |content|
  }

  /** The stream is the listed objects one after another, under paths not seen before, and nothing else. */
  ghost predicate IsStream(entries: seq<TreeEntry>, rest: seq<byte>, seen: Payloads, result: Payloads) {
    if entries == [] then
      rest == [] && result == seen
    else
      exists header, content, more ::
        && rest == header + [10] + content + [10] + more && IsObject(entries[0].objectId, header, content)
        && entries[0].path !in seen && IsStream(entries[1..], more, seen[entries[0].path := content], result)
  }

  lemma HeaderIsFound(header: seq<byte>, tail: seq<byte>)
    requires forall i :: 0 <= i < |header| ==> header[i] != LF
    ensures var rest := header + ([LF] + tail);
            FindLf(rest) == |header| < |rest| && rest[..|header|] == header && rest[|header| + 1..] == tail
  {
    var rest := header + ([LF] + tail);
    assert rest[|header|] == LF && forall i :: 0 <= i < |header| ==> rest[i] == header[i];
  }

  /** An object at the front is taken, if its path is new. */
  lemma ObjectIsTaken(entries: seq<TreeEntry>, header: seq<byte>, content: seq<byte>, more: seq<byte>, seen: Payloads)
    requires entries != [] && IsObject(entries[0].objectId, header, content)
    ensures ParseStream(entries, header + [10] + content + [10] + more, seen)
            == if entries[0].path in seen then Err(Control)
               else ParseStream(entries[1..], more, seen[entries[0].path := content])
  {
    hide Words, Number, FindLf;
    var tail := content + ([10] + more);
    assert header + [10] + content + [10] + more == header + ([LF] + tail);
    HeaderIsFound(header, tail);
    assert tail[..|content|] == content && tail[|content|] == LF && tail[|content| + 1..] == more;
  }

  /** And what is taken is an object. */
  lemma TakenIsObject(entries: seq<TreeEntry>, rest: seq<byte>, seen: Payloads)
    returns (header: seq<byte>, content: seq<byte>, more: seq<byte>)
    requires entries != [] && ParseStream(entries, rest, seen).Ok?
    ensures rest == header + [10] + content + [10] + more && IsObject(entries[0].objectId, header, content)
    ensures entries[0].path !in seen
  {
    hide Words, Number, FindLf;
    var n := FindLf(rest);
    var body := rest[n + 1..];
    header := rest[..n];
    var size := SizeIn(header, entries[0].objectId).value;
    content, more := body[..size], body[size + 1..];
    assert body == content + [10] + more;
    assert rest == header + [10] + content + [10] + more;
  }

  /** The parser accepts exactly the streams of the listed objects, and returns exactly their payloads. */
  lemma {:induction false} StreamsParseExactly(entries: seq<TreeEntry>, rest: seq<byte>, seen: Payloads,
                                               result: Payloads)
    ensures ParseStream(entries, rest, seen) == Ok(result) <==> IsStream(entries, rest, seen, result)
    decreases |entries|
  {
    hide Words, Number, FindLf, IsObject;
    if entries != [] {
      hide ParseStream;
      if ParseStream(entries, rest, seen) == Ok(result) {
        var header, content, more := TakenIsObject(entries, rest, seen);
        ObjectIsTaken(entries, header, content, more, seen);
        StreamsParseExactly(entries[1..], more, seen[entries[0].path := content], result);
      }
      if IsStream(entries, rest, seen, result) {
        var header, content, more :|
          && rest == header + [10] + content + [10] + more && IsObject(entries[0].objectId, header, content)
          && entries[0].path !in seen && IsStream(entries[1..], more, seen[entries[0].path := content], result);
        ObjectIsTaken(entries, header, content, more, seen);
        StreamsParseExactly(entries[1..], more, seen[entries[0].path := content], result);
      }
    }
  }
}
