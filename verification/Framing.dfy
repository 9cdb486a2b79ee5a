/** The framed output bundle: canonical headers, raw contents, and a footer that binds the inventory. */
module Framing {
  import opened Results
  import opened Bytes

  const MAX_BUNDLE_BYTES := 67108864
  const MAX_BUNDLE_FILES := 12000

  /** A digest stands for the content it was computed from. */
  datatype Sha = Sha(content: seq<byte>)

  datatype FileInfo = FileInfo(size: int, sha: Sha)

  type Inventory = map<string, FileInfo>

  type Files = map<string, seq<byte>>

  datatype Header = FileHeader(path: string, size: int, sha: Sha) | Footer(count: int, inventory: Inventory) | Malformed

  /** Canonical JSON, as far as headers go. */
  datatype HeaderCodec = HeaderCodec(enc: Header -> seq<byte>, dec: seq<byte> -> Option<Header>)

  /** Every header prints as one line, and parsing the line gives it back. */
  ghost predicate Faithful(c: HeaderCodec) {
    forall h :: IsLine(c.enc(h)) && c.dec(c.enc(h)) == Some(h)
  }

  datatype Entry = Entry(path: string, content: seq<byte>)

  // ---- paths ----

  function Parts(path: string): seq<string> {
    if path == "" then [""]
    else if path[0] == '/' then [""] + Parts(path[1..])
    else
      var rest := Parts(path[1..]);
      if rest == [] then [[path[0]]] else [[path[0]] + rest[0]] + rest[1..]
  }

  predicate SafePath(path: string) {
    !("/" <= path) && ".." !in Parts(path)
  }

  predicate ListedPath(path: string) {
    path == "capability-probes.json" || "assisted/S2-CASE-" <= path || "comparator/S2-CASE-" <= path
  }

  // ---- what the two sides compute ----

  function InventoryOf(files: Files): Inventory {
    map p | p in files :: FileInfo(|files[p]|, Sha(files[p]))
  }

  function FilesOf(entries: seq<Entry>): Files {
    if entries == [] then map[]
    else FilesOf(entries[..|entries| - 1])[entries[|entries| - 1].path := entries[|entries| - 1].content]
  }

  function FrameFile(c: HeaderCodec, e: Entry): seq<byte> {
    c.enc(FileHeader(e.path, |e.content|, Sha(e.content))) + e.content
  }

  function FrameFiles(c: HeaderCodec, entries: seq<Entry>): seq<byte> {
    if entries == [] then [] else FrameFiles(c, entries[..|entries| - 1]) + FrameFile(c, entries[|entries| - 1])
  }

  function FrameAll(c: HeaderCodec, entries: seq<Entry>): seq<byte> {
    FrameFiles(c, entries) + c.enc(Footer(|FilesOf(entries)|, InventoryOf(FilesOf(entries))))
  }

  /** The files of a run, each once. */
  ghost predicate DistinctPaths(entries: seq<Entry>) {
    forall i, j :: 0 <= i < j < |entries| ==> entries[i].path != entries[j].path
  }

  /** `frame_bundle`, over the files in inventory order. */
  method FrameBundle(c: HeaderCodec, entries: seq<Entry>) returns (r: Result<seq<byte>>)
    requires DistinctPaths(entries)
    ensures r == if |FrameAll(c, entries)| > MAX_BUNDLE_BYTES || |entries| > MAX_BUNDLE_FILES then Err(Control)
                 else Ok(FrameAll(c, entries))
  {
    var output: seq<byte> := [];
    var files: Files := map[];
    for i := 0 to |entries|
      invariant output == FrameFiles(c, entries[..i]) && files == FilesOf(entries[..i]) && |files| == i
    {
      assert entries[..i + 1][..i] == entries[..i];
      PathIsNew(entries, i);
      output := output + FrameFile(c, entries[i]);
      files := files[entries[i].path := entries[i].content];
    }
    assert entries[..|entries|] == entries;
    output := output + c.enc(Footer(|files|, InventoryOf(files)));
    return if |output| > MAX_BUNDLE_BYTES || |files| > MAX_BUNDLE_FILES then Err(Control) else Ok(output);
  }

  lemma {:induction false} PathsOf(entries: seq<Entry>, path: string)
    ensures path in FilesOf(entries) <==> exists i :: 0 <= i < |entries| && entries[i].path == path
  {
    if entries != [] {
      var prefix := entries[..|entries| - 1];
      PathsOf(prefix, path);
      assert forall i :: 0 <= i < |prefix| ==> prefix[i] == entries[i];
    }
  }

  lemma PathIsNew(entries: seq<Entry>, i: nat)
    requires DistinctPaths(entries) && i < |entries|
    ensures entries[i].path !in FilesOf(entries[..i])
  {
    PathsOf(entries[..i], entries[i].path);
  }

  /** One file header and the content behind it, taken into the files so far. */
  function TakeFile(h: Header, rest: seq<byte>, files: Files): (r: Result<Files>)
    requires h.FileHeader?
    ensures r.Ok? ==> 0 <= h.size <= |rest|
  {
    if h.size < 0 || !SafePath(h.path) || h.path in files || !ListedPath(h.path) then Err(Control)
    else if h.size > |rest| || Sha(rest[..h.size]) != h.sha || !IsUtf8(rest[..h.size]) then Err(Control)
    else if |files[h.path := rest[..h.size]]| > MAX_BUNDLE_FILES then Err(Control)
    else Ok(files[h.path := rest[..h.size]])
  }

  function ParseRest(c: HeaderCodec, rest: seq<byte>, files: Files): Result<Files>
    decreases |rest|
  {
    var n := FindLf(rest);
    if n == |rest| then Err(Control)
    else
      var body := rest[n + 1..];
      match c.dec(rest[..n + 1])
      case None => Err(Control)
      case Some(Malformed) => Err(Control)
      case Some(Footer(count, inventory)) =>
        if body != [] || count != |files| || inventory != InventoryOf(files) then Err(Control) else Ok(files)
      case Some(h) =>
        var taken :- TakeFile(h, body, files);
        ParseRest(c, body[h.size..], taken)
  }

  function Parse(c: HeaderCodec, payload: seq<byte>): Result<Files> {
    if |payload| > MAX_BUNDLE_BYTES then Err(Control) else ParseRest(c, payload, map[])
  }

  /** `parse_framed_bundle`: an offset over the payload, and two dictionaries filled as it goes. */
  method ParseFramedBundle(c: HeaderCodec, payload: seq<byte>) returns (r: Result<Files>)
    ensures r == Parse(c, payload)
  {
    hide TakeFile, InventoryOf, FindLf, ParseRest;
    if |payload| > MAX_BUNDLE_BYTES {
      return Err(Control);
    }
    var offset := 0;
    var files: Files, inventory: Inventory := map[], map[];
    assert InventoryOf(map[]) == map[] by {
      NothingListed();
    }
    assert payload[0..] == payload;
    while offset < |payload|
      invariant 0 <= offset <= |payload|
      invariant inventory == InventoryOf(files)
      invariant Parse(c, payload) == ParseRest(c, payload[offset..], files)
      decreases |payload| - offset
    {
      var rest := payload[offset..];
      var n := FindLf(rest);
      ParseLine(c, rest, files);
      if n == |rest| {
        return Err(Control);
      }
      var header := c.dec(rest[..n + 1]);
      offset := offset + n + 1;
      var body := payload[offset..];
      assert body == rest[n + 1..];
      if header.None? || header.value.Malformed? {
        return Err(Control);
      }
      var h := header.value;
      if h.Footer? {
        return if offset != |payload| || h.count != |files| || h.inventory != inventory then Err(Control)
               else Ok(files);
      }
      var taken := TakeFile(h, body, files);
      if taken.Err? {
        return Err(taken.error);
      }
      TakenInventory(h, body, files);
      inventory := inventory[h.path := FileInfo(h.size, h.sha)];
      files := taken.value;
      offset := offset + h.size;
      assert payload[offset..] == body[h.size..];
    }
    ParseLine(c, payload[offset..], files);
    return Err(Control);
  }

  /** One line of the stream, by what its header turns out to be. */
  lemma ParseLine(c: HeaderCodec, rest: seq<byte>, files: Files)
    ensures var n := FindLf(rest);
            if n == |rest| then ParseRest(c, rest, files) == Err(Control)
            else
              var header, body := c.dec(rest[..n + 1]), rest[n + 1..];
              && (header.None? || header.value.Malformed? ==> ParseRest(c, rest, files) == Err(Control))
              && (header.Some? && header.value.Footer?
                  ==> ParseRest(c, rest, files)
                      == if body != [] || header.value.count != |files| || header.value.inventory != InventoryOf(files)
                         then Err(Control) else Ok(files))
              && (header.Some? && header.value.FileHeader?
                  ==> var taken := TakeFile(header.value, body, files);
                      ParseRest(c, rest, files)
                      == if taken.Err? then Err(taken.error) else ParseRest(c, body[header.value.size..], taken.value))
  {
    hide TakeFile, InventoryOf, FindLf;
  }

  lemma NothingListed()
    ensures InventoryOf(map[]) == map[]
  {
  }

  lemma TakenInventory(h: Header, rest: seq<byte>, files: Files)
    requires h.FileHeader? && TakeFile(h, rest, files).Ok?
    ensures InventoryOf(TakeFile(h, rest, files).value) == InventoryOf(files)[h.path := FileInfo(h.size, h.sha)]
  {
    hide SafePath, ListedPath, IsUtf8;
  }

  // ---- round trip ----

  predicate Bundled(e: Entry) {
    SafePath(e.path) && ListedPath(e.path) && IsUtf8(e.content)
  }

  lemma BundledIsTaken(e: Entry, rest: seq<byte>, files: Files)
    requires Bundled(e) && e.path !in files && |files| < MAX_BUNDLE_FILES
    ensures TakeFile(FileHeader(e.path, |e.content|, Sha(e.content)), e.content + rest, files)
            == Ok(files[e.path := e.content])
  {
    hide SafePath, ListedPath, IsUtf8;
    assert (e.content + rest)[..|e.content|] == e.content;
  }

  lemma {:induction false} FileFrameParses(c: HeaderCodec, e: Entry, rest: seq<byte>, files: Files)
    requires Faithful(c) && Bundled(e) && e.path !in files && |files| < MAX_BUNDLE_FILES
    ensures ParseRest(c, FrameFile(c, e) + rest, files) == ParseRest(c, rest, files[e.path := e.content])
  {
    hide FindLf, TakeFile, InventoryOf, ParseRest;
    var h := FileHeader(e.path, |e.content|, Sha(e.content));
    var line, body := c.enc(h), e.content + rest;
    assert FrameFile(c, e) + rest == line + body;
    assert IsLine(line) && c.dec(line) == Some(h);
    LineIsFound(line, body);
    assert body[..h.size] == e.content && body[h.size..] == rest;
    ParseLine(c, line + body, files);
    BundledIsTaken(e, rest, files);
  }

  /** The rest of a bundle parses behind what was already taken. */
  lemma {:induction false} FilesParse(c: HeaderCodec, entries: seq<Entry>, k: nat, rest: seq<byte>)
    requires Faithful(c) && DistinctPaths(entries) && |entries| <= MAX_BUNDLE_FILES && k <= |entries|
    requires forall i :: 0 <= i < |entries| ==> Bundled(entries[i])
    ensures ParseRest(c, FrameFiles(c, entries[..k]) + rest, map[]) == ParseRest(c, rest, FilesOf(entries[..k]))
    ensures |FilesOf(entries[..k])| == k
  {
    hide Bundled, Faithful, ParseRest, FrameFile;
    if k == 0 {
      assert FrameFiles(c, entries[..0]) + rest == rest;
    } else {
      var prefix, e := entries[..k - 1], entries[k - 1];
      assert entries[..k][..k - 1] == prefix;
      FilesParse(c, entries, k - 1, FrameFile(c, e) + rest);
      assert FrameFiles(c, entries[..k]) + rest == FrameFiles(c, prefix) + (FrameFile(c, e) + rest);
      PathIsNew(entries, k - 1);
      FileFrameParses(c, e, rest, FilesOf(prefix));
    }
  }

  /**
   * Framing round trip. Every allow-listed UTF-8 file map within bounds, contents with newlines included, comes back
   * as it was framed.
   */
  lemma FramedBundleParses(c: HeaderCodec, entries: seq<Entry>)
    requires Faithful(c) && DistinctPaths(entries) && |entries| <= MAX_BUNDLE_FILES
    requires forall i :: 0 <= i < |entries| ==> Bundled(entries[i])
    requires |FrameAll(c, entries)| <= MAX_BUNDLE_BYTES
    ensures Parse(c, FrameAll(c, entries)) == Ok(FilesOf(entries))
  {
    hide Bundled;
    var files := FilesOf(entries);
    var footer := Footer(|files|, InventoryOf(files));
    var line := c.enc(footer);
    assert entries[..|entries|] == entries;
    FilesParse(c, entries, |entries|, line);
    assert IsLine(line) && c.dec(line) == Some(footer);
    LineIsFound(line, []);
    assert line + [] == line;
  }

  // ---- no accepted stream begins another ----

  lemma TakeMore(h: Header, rest: seq<byte>, more: seq<byte>, files: Files)
    requires h.FileHeader? && TakeFile(h, rest, files).Ok?
    ensures TakeFile(h, rest + more, files) == TakeFile(h, rest, files)
    ensures (rest + more)[h.size..] == rest[h.size..] + more
  {
    hide SafePath, ListedPath, IsUtf8;
    assert (rest + more)[..h.size] == rest[..h.size];
  }

  /** An accepted stream followed by anything at all is refused, under every codec. */
  lemma {:induction false} AcceptedStreamsEnd(c: HeaderCodec, rest: seq<byte>, more: seq<byte>, files: Files)
    requires ParseRest(c, rest, files).Ok?
    ensures ParseRest(c, rest + more, files).Ok? <==> more == []
    decreases |rest|
  {
    hide TakeFile, InventoryOf, FindLf, ParseRest;
    var n := FindLf(rest);
    ParseLine(c, rest, files);
    ParseLine(c, rest + more, files);
    SameFirstLine(rest, more);
    if more == [] {
      assert rest + more == rest;
    } else {
      var h := c.dec(rest[..n + 1]).value;
      var body := rest[n + 1..];
      if h.FileHeader? {
        TakeMore(h, body, more, files);
        AcceptedStreamsEnd(c, body[h.size..], more, TakeFile(h, body, files).value);
      }
    }
  }

  /** Prefix freedom: of two accepted streams, neither strictly begins the other. */
  lemma BundlesArePrefixFree(c: HeaderCodec, a: seq<byte>, b: seq<byte>)
    requires Parse(c, a).Ok? && Parse(c, b).Ok? && a <= b
    ensures a == b
  {
    hide ParseRest;
    AcceptedStreamsEnd(c, a, b[|a|..], map[]);
    assert a + b[|a|..] == b;
  }

  // ---- what an accepted stream can contain ----

  ghost predicate AllBundled(files: Files) {
    forall p :: p in files ==> Bundled(Entry(p, files[p]))
  }

  /** Whatever the headers say, every file accepted lies on a safe allow-listed path and is valid UTF-8. */
  lemma {:induction false} AcceptedFilesAreListed(c: HeaderCodec, rest: seq<byte>, files: Files)
    requires AllBundled(files) && |files| <= MAX_BUNDLE_FILES && ParseRest(c, rest, files).Ok?
    ensures AllBundled(ParseRest(c, rest, files).value) && |ParseRest(c, rest, files).value| <= MAX_BUNDLE_FILES
    ensures forall p :: p in files ==>
              p in ParseRest(c, rest, files).value && ParseRest(c, rest, files).value[p] == files[p]
    decreases |rest|
  {
    hide SafePath, ListedPath, IsUtf8, InventoryOf, FindLf;
    var n := FindLf(rest);
    var h := c.dec(rest[..n + 1]).value;
    if h.FileHeader? {
      var body := rest[n + 1..];
      assert AllBundled(TakeFile(h, body, files).value);
      AcceptedFilesAreListed(c, body[h.size..], TakeFile(h, body, files).value);
    }
  }

  // ---- the same, said of the characters and bytes ----

  /** A whole path component of two dots starts here. */
  predicate DotsAt(path: string, i: nat) {
    && i + 2 <= |path| && path[i] == '.' && path[i + 1] == '.'
    && (i == 0 || path[i - 1] == '/') && (i + 2 == |path| || path[i + 2] == '/')
  }

  function FirstSlash(path: string): (n: nat)
    ensures n <= |path| && (n < |path| ==> path[n] == '/')
  {
    if path == "" || path[0] == '/' then 0 else 1 + FirstSlash(path[1..])
  }

  lemma {:induction false} FirstPartEnds(path: string)
    ensures Parts(path) != [] && Parts(path)[0] == path[..FirstSlash(path)]
    ensures forall i :: 0 <= i < FirstSlash(path) ==> path[i] != '/'
  {
    if path != "" && path[0] != '/' {
      FirstPartEnds(path[1..]);
      assert path[..FirstSlash(path)] == [path[0]] + path[1..][..FirstSlash(path[1..])];
      assert forall i :: 1 <= i < FirstSlash(path) ==> path[i] == path[1..][i - 1];
    }
  }

  lemma FirstPart(path: string)
    ensures Parts(path) != []
    ensures Parts(path)[0] == ".." <==> DotsAt(path, 0)
  {
    FirstPartEnds(path);
    hide FirstSlash, Parts;
    var n := FirstSlash(path);
    if Parts(path)[0] == ".." {
      assert path[..n][0] == '.' && path[..n][1] == '.';
    }
    if DotsAt(path, 0) {
      assert n == 2;
      assert path[..2] == "..";
    }
  }

  lemma DotsShift(path: string, i: nat)
    requires path != ""
    ensures DotsAt(path, i + 1) <==> DotsAt(path[1..], i) && (i == 0 ==> path[0] == '/')
  {
  }

  lemma {:induction false} LaterParts(path: string)
    ensures Parts(path) != []
    ensures ".." in Parts(path)[1..] <==> exists i: nat :: i > 0 && DotsAt(path, i)
  {
    FirstPart(path);
    if path != "" {
      var rest := path[1..];
      LaterParts(rest);
      FirstPart(rest);
      forall i: nat ensures DotsAt(path, i + 1) <==> DotsAt(rest, i) && (i == 0 ==> path[0] == '/') {
        DotsShift(path, i);
      }
      assert Parts(rest) == [Parts(rest)[0]] + Parts(rest)[1..];
      hide DotsAt;
      if i: nat :| i > 0 && DotsAt(path, i) {
        assert DotsAt(rest, i - 1);
      }
      if i: nat :| DotsAt(rest, i) && (i == 0 ==> path[0] == '/') {
        assert DotsAt(path, i + 1);
      }
    } else {
      assert Parts(path)[1..] == [];
    }
  }

  /** A safe path is relative and no component of it is two dots. */
  lemma SafeMeansInside(path: string)
    ensures SafePath(path) <==> (path == "" || path[0] != '/') && forall i: nat :: !DotsAt(path, i)
  {
    FirstPart(path);
    LaterParts(path);
    assert Parts(path) == [Parts(path)[0]] + Parts(path)[1..];
    hide DotsAt;
  }

  /**
   * What a reader of an accepted bundle may rely on: at most 12000 files, each under a relative path without a
   * two-dot component in one of the three listed places, and each the encoding of some text.
   */
  lemma AcceptedFilesStayInside(c: HeaderCodec, payload: seq<byte>, p: string)
    requires Parse(c, payload).Ok? && p in Parse(c, payload).value
    ensures |payload| <= 67108864 && |Parse(c, payload).value| <= 12000
    ensures p != "" && p[0] != '/' && forall i: nat :: !DotsAt(p, i)
    ensures || p == "capability-probes.json"
            || (|p| >= 17 && p[..17] == "assisted/S2-CASE-") || (|p| >= 19 && p[..19] == "comparator/S2-CASE-")
    ensures exists chars :: AllScalars(chars) && EncodedAll(chars) == Parse(c, payload).value[p]
  {
    hide ParseRest, SafePath, IsUtf8, EncodedAll, DotsAt;
    AcceptedFilesAreListed(c, payload, map[]);
    SafeMeansInside(p);
    Utf8IsEncoding(Parse(c, payload).value[p]);
  }

  /** A path that stays inside and is one of those a bundle may carry. */
  ghost predicate MayCarry(path: string) {
    && path != "" && path[0] != '/' && (forall i: nat :: !DotsAt(path, i))
    && (|| path == "capability-probes.json"
        || (|path| >= 17 && path[..17] == "assisted/S2-CASE-") || (|path| >= 19 && path[..19] == "comparator/S2-CASE-"))
  }

  /** The header line of a file in the stream, then exactly the content it announces and was hashed from. */
  ghost predicate IsFramed(c: HeaderCodec, line: seq<byte>, path: string, content: seq<byte>) {
    && IsLine(line) && c.dec(line) == Some(FileHeader(path, |content|, Sha(content)))
    && MayCarry(path) && exists chars :: AllScalars(chars) && EncodedAll(chars) == content
  }

  /** The footer names the number of files, and the size and digest of each of them. */
  predicate IsClosed(c: HeaderCodec, line: seq<byte>, files: Files) {
    && IsLine(line) && c.dec(line).Some? && c.dec(line).value.Footer? && c.dec(line).value.count == |files|
    && c.dec(line).value.inventory.Keys == files.Keys
    && forall p :: p in files
         ==> && c.dec(line).value.inventory[p].size == |files[p]|
             && c.dec(line).value.inventory[p].sha == Sha(files[p])
  }

  /** The rest of a stream: framed files under new paths, then the footer that binds them all, then nothing. */
  ghost predicate IsBundle(c: HeaderCodec, rest: seq<byte>, files: Files, result: Files)
    decreases |rest|
  {
    || (IsClosed(c, rest, files) && result == files)
    || exists line, path, content, more ::
         && rest == line + content + more && IsFramed(c, line, path, content)
         && path !in files && |files| < 12000 && IsBundle(c, more, files[path := content], result)
  }

  lemma TakenExactly(h: Header, body: seq<byte>, files: Files)
    requires h.FileHeader?
    ensures TakeFile(h, body, files).Ok?
            <==> && 0 <= h.size <= |body| && h.sha == Sha(body[..h.size]) && MayCarry(h.path) && h.path !in files
                 && |files| < 12000 && exists chars :: AllScalars(chars) && EncodedAll(chars) == body[..h.size]
    ensures TakeFile(h, body, files).Ok? ==> TakeFile(h, body, files).value == files[h.path := body[..h.size]]
  {
    SafeMeansInside(h.path);
    EmptyIsUnlisted();
    if 0 <= h.size <= |body| {
      Utf8IsEncoding(body[..h.size]);
    }
    hide SafePath, IsUtf8, EncodedAll, DotsAt;
  }

  lemma EmptyIsUnlisted()
    ensures !ListedPath("")
  {
  }

  lemma ClosedExactly(c: HeaderCodec, line: seq<byte>, files: Files)
    requires IsLine(line) && c.dec(line).Some? && c.dec(line).value.Footer?
    ensures IsClosed(c, line, files)
            <==> c.dec(line).value.count == |files| && c.dec(line).value.inventory == InventoryOf(files)
  {
    var inventory := c.dec(line).value.inventory;
    if IsClosed(c, line, files) {
      forall p | p in files ensures inventory[p] == FileInfo(|files[p]|, Sha(files[p])) {
      }
      assert inventory == InventoryOf(files);
    }
  }

  /** A framed file at the front is taken. */
  lemma FramedIsTaken(c: HeaderCodec, line: seq<byte>, path: string, content: seq<byte>, more: seq<byte>, files: Files)
    requires IsFramed(c, line, path, content) && path !in files && |files| < 12000
    ensures ParseRest(c, line + content + more, files) == ParseRest(c, more, files[path := content])
  {
    hide TakeFile, InventoryOf, FindLf, ParseRest, MayCarry, EncodedAll;
    var h, body := FileHeader(path, |content|, Sha(content)), content + more;
    assert line + content + more == line + body;
    LineIsFound(line, body);
    assert body[..|content|] == content && body[|content|..] == more;
    ParseLine(c, line + body, files);
    TakenExactly(h, body, files);
  }

  /** The first line of an accepted stream closes it or frames a file. */
  lemma AcceptedStarts(c: HeaderCodec, rest: seq<byte>, files: Files)
    returns (closed: bool, line: seq<byte>, path: string, content: seq<byte>, more: seq<byte>)
    requires ParseRest(c, rest, files).Ok?
    ensures closed ==> IsClosed(c, rest, files) && ParseRest(c, rest, files) == Ok(files)
    ensures !closed ==> && rest == line + content + more && IsFramed(c, line, path, content) && path !in files
                        && |files| < 12000
  {
    hide TakeFile, InventoryOf, FindLf, ParseRest, MayCarry, EncodedAll;
    var n := FindLf(rest);
    ParseLine(c, rest, files);
    FirstLineSplits(rest);
    var h, body := c.dec(rest[..n + 1]).value, rest[n + 1..];
    closed, line, path, content, more := h.Footer?, rest[..n + 1], "", [], [];
    if closed {
      assert rest[..n + 1] == rest;
      ClosedExactly(c, rest, files);
    } else {
      TakenExactly(h, body, files);
      path, content, more := h.path, body[..h.size], body[h.size..];
      assert body == content + more && rest == line + body;
      assert rest == line + content + more;
    }
  }

  /**
   * The bundle parser, exactly. It accepts the streams made of framed files, each announced with its true length and
   * digest under a new path it may carry, closed by a footer that binds them all, and returns just those files.
   */
  lemma {:induction false} BundlesParseExactly(c: HeaderCodec, rest: seq<byte>, files: Files, result: Files)
    ensures ParseRest(c, rest, files) == Ok(result) <==> IsBundle(c, rest, files, result)
    decreases |rest|
  {
    hide ParseRest, IsFramed, IsClosed, IsLine;
    if ParseRest(c, rest, files) == Ok(result) {
      var closed, line, path, content, more := AcceptedStarts(c, rest, files);
      if !closed {
        FramedIsTaken(c, line, path, content, more, files);
        FramedIsNonempty(c, line, path, content);
        BundlesParseExactly(c, more, files[path := content], result);
      }
    }
    if IsBundle(c, rest, files, result) {
      if IsClosed(c, rest, files) && result == files {
        ClosedParses(c, rest, files);
      } else {
        var line, path, content, more :|
          && rest == line + content + more && IsFramed(c, line, path, content)
          && path !in files && |files| < 12000 && IsBundle(c, more, files[path := content], result);
        FramedIsTaken(c, line, path, content, more, files);
        FramedIsNonempty(c, line, path, content);
        BundlesParseExactly(c, more, files[path := content], result);
      }
    }
  }

  lemma FramedIsNonempty(c: HeaderCodec, line: seq<byte>, path: string, content: seq<byte>)
    requires IsFramed(c, line, path, content)
    ensures |line| > 0
  {
  }

  lemma ClosedParses(c: HeaderCodec, rest: seq<byte>, files: Files)
    requires IsClosed(c, rest, files)
    ensures ParseRest(c, rest, files) == Ok(files)
  {
    hide TakeFile, InventoryOf, FindLf, ParseRest;
    LineIsFound(rest, []);
    assert rest + [] == rest && rest[|rest|..] == [];
    ParseLine(c, rest, files);
    ClosedExactly(c, rest, files);
  }
}
