/**
 * The bytes under a journal: how its readers split them, and why a crash at any byte of an append leaves one of the
 * three shapes the journal model allows.
 */
module ByteJournal {
  import opened Results
  import opened Bytes
  import opened Journals
  import EffectReaders
  import Records

  const CR: byte := 13

  /** Canonical JSON of one record per line. */
  datatype Codec<!T> = Codec(enc: T -> seq<byte>, dec: seq<byte> -> Option<T>)

  predicate IsRecordLine(s: seq<byte>) {
    IsLine(s) && CR !in s
  }

  /** Every record prints as one line without a raw CR, and parsing the line gives it back. */
  ghost predicate Faithful<T(!new)>(c: Codec<T>) {
    forall x :: IsRecordLine(c.enc(x)) && c.dec(c.enc(x)) == Some(x)
  }

  // ---- splitting ----

  /** The length of the first piece: up to an LF, a CR with its LF, a bare CR, or the end. */
  function PieceLength(s: seq<byte>): (n: nat)
    requires s != []
    ensures 1 <= n <= |s|
  {
    if s[0] == LF then 1
    else if s[0] == CR then if |s| > 1 && s[1] == LF then 2 else 1
    else if |s| == 1 then 1
    else 1 + PieceLength(s[1..])
  }

  /** `splitlines(keepends=True)`. */
  function Pieces(s: seq<byte>): seq<seq<byte>>
    decreases |s|
  {
    if s == [] then [] else [s[..PieceLength(s)]] + Pieces(s[PieceLength(s)..])
  }

  /** Bytes as the text that stands for them. */
  function AsText(s: seq<byte>): string {
    seq(|s|, i requires 0 <= i < |s| => s[i] as char)
  }

  function ReadPiece<T>(c: Codec<T>, piece: seq<byte>): Line<T> {
    if piece == [] || piece[|piece| - 1] != LF then Open(AsText(piece))
    else
      match c.dec(piece)
      case Some(x) => Rec(x)
      case None => Junk
  }

  function ReadPieces<T>(c: Codec<T>, pieces: seq<seq<byte>>): (lines: seq<Line<T>>)
    ensures |lines| == |pieces| && forall i :: 0 <= i < |pieces| ==> lines[i] == ReadPiece(c, pieces[i])
  {
    seq(|pieces|, i requires 0 <= i < |pieces| => ReadPiece(c, pieces[i]))
  }

  function Written<T>(c: Codec<T>, records: seq<T>): seq<byte> {
    if records == [] then [] else Written(c, records[..|records| - 1]) + c.enc(records[|records| - 1])
  }

  // ---- one line, and a torn one ----

  lemma {:induction false} LinePiece(line: seq<byte>, rest: seq<byte>)
    requires IsRecordLine(line)
    ensures PieceLength(line + rest) == |line|
  {
    var all := line + rest;
    if |line| > 1 {
      assert all[0] == line[0] && line[0] in line;
      var shorter := line[1..];
      assert all[1..] == shorter + rest;
      assert CR !in shorter by {
        assert forall b :: b in shorter ==> b in line;
      }
      LinePiece(shorter, rest);
    } else {
      assert all[0] == line[0];
    }
  }

  lemma LineSplits(line: seq<byte>, rest: seq<byte>)
    requires IsRecordLine(line)
    ensures Pieces(line + rest) == [line] + Pieces(rest)
  {
    LinePiece(line, rest);
    assert (line + rest)[..|line|] == line && (line + rest)[|line|..] == rest;
  }

  lemma {:induction false} TornPiece(torn: seq<byte>)
    requires torn != [] && LF !in torn && CR !in torn
    ensures PieceLength(torn) == |torn| && Pieces(torn) == [torn]
  {
    assert torn[0] in torn;
    if |torn| > 1 {
      assert forall b :: b in torn[1..] ==> b in torn;
      TornPiece(torn[1..]);
    }
    assert torn[..|torn|] == torn && torn[|torn|..] == [];
  }

  lemma {:induction false} RecordsSplit<T(!new)>(c: Codec<T>, records: seq<T>, rest: seq<byte>)
    requires Faithful(c)
    ensures Pieces(Written(c, records) + rest) == seq(|records|, i requires 0 <= i < |records| => c.enc(records[i]))
            + Pieces(rest)
  {
    hide Pieces, IsRecordLine;
    if records == [] {
      assert Written(c, records) + rest == rest;
    } else {
      var prefix, line := records[..|records| - 1], c.enc(records[|records| - 1]);
      assert IsRecordLine(line);
      RecordsSplit(c, prefix, line + rest);
      LineSplits(line, rest);
      assert Written(c, records) + rest == Written(c, prefix) + (line + rest);
    }
  }

  lemma ProperPrefixIsTorn(line: seq<byte>, k: nat)
    requires IsRecordLine(line) && 0 < k < |line|
    ensures LF !in line[..k] && CR !in line[..k]
  {
    assert forall b :: b in line[..k] ==> b in line;
  }

  /** What the reader sees of whole records followed by anything. */
  lemma RecordsRead<T(!new)>(c: Codec<T>, records: seq<T>, rest: seq<byte>)
    requires Faithful(c)
    ensures ReadPieces(c, Pieces(Written(c, records) + rest)) == Recs(records) + ReadPieces(c, Pieces(rest))
  {
    hide Pieces;
    RecordsSplit(c, records, rest);
    forall i | 0 <= i < |records| ensures ReadPiece(c, c.enc(records[i])) == Rec(records[i]) {
      assert IsRecordLine(c.enc(records[i]));
    }
  }

  // ---- a crash at any byte ----

  /** The journal after the first k bytes of one more line. */
  function CutAt<T>(c: Codec<T>, records: seq<T>, x: T, k: nat): Journal<T>
    requires k <= |c.enc(x)|
  {
    if k == 0 then Journal(records, None)
    else if k < |c.enc(x)| then Journal(records, Some(AsText(c.enc(x)[..k])))
    else Journal(records + [x], None)
  }

  /**
   * A crash at any byte of an append leaves the journal as it was, or with one torn piece, or with the whole record:
   * the reader's pieces are exactly those of the corresponding journal value.
   */
  lemma EveryCutIsAJournal<T(!new)>(c: Codec<T>, records: seq<T>, x: T, k: nat)
    requires Faithful(c) && k <= |c.enc(x)|
    ensures ReadPieces(c, Pieces(Written(c, records) + c.enc(x)[..k])) == LinesOf(CutAt(c, records, x, k))
  {
    hide Pieces;
    var line := c.enc(x);
    assert IsRecordLine(line);
    RecordsRead(c, records, line[..k]);
    if k == 0 {
      NoPieces();
    } else if k < |line| {
      ProperPrefixIsTorn(line, k);
      TornPiece(line[..k]);
      assert line[..k][k - 1] in line[..k];
    } else {
      assert line[..k] == line;
      RecordsRead(c, records + [x], []);
      assert (records + [x])[..|records|] == records;
      assert Written(c, records + [x]) + [] == Written(c, records) + line;
      NoPieces();
    }
  }

  lemma NoPieces()
    ensures Pieces([]) == []
  {
  }

  // ---- where recovery cuts ----

  /** `rfind(LF) + 1`. */
  function AfterLastLf(s: seq<byte>): (n: nat)
    ensures n <= |s| && (n > 0 ==> s[n - 1] == LF) && forall i :: n <= i < |s| ==> s[i] != LF
  {
    if s == [] then 0
    else if s[|s| - 1] == LF then |s|
    else AfterLastLf(s[..|s| - 1])
  }

  lemma WrittenEndsInLf<T(!new)>(c: Codec<T>, records: seq<T>)
    requires Faithful(c) && records != []
    ensures var s := Written(c, records); s != [] && s[|s| - 1] == LF
  {
    assert IsRecordLine(c.enc(records[|records| - 1]));
  }

  /** Cutting after the last LF of a torn ledger leaves exactly its whole records, whichever byte the crash hit. */
  lemma TornLedgerIsCutToRecords<T(!new)>(c: Codec<T>, records: seq<T>, x: T, k: nat)
    requires Faithful(c) && 0 < k < |c.enc(x)|
    ensures var raw := Written(c, records) + c.enc(x)[..k];
            AfterLastLf(raw) == |Written(c, records)| && raw[..AfterLastLf(raw)] == Written(c, records)
  {
    var whole, torn := Written(c, records), c.enc(x)[..k];
    var raw := whole + torn;
    assert IsRecordLine(c.enc(x));
    ProperPrefixIsTorn(c.enc(x), k);
    forall i | |whole| <= i < |raw| ensures raw[i] != LF {
      assert raw[i] == torn[i - |whole|] && torn[i - |whole|] in torn;
    }
    if records != [] {
      WrittenEndsInLf(c, records);
      assert raw[|whole| - 1] == whole[|whole| - 1];
    }
    assert raw[..|whole|] == whole;
  }

  function TotalLength(pieces: seq<seq<byte>>): nat {
    if pieces == [] then 0 else TotalLength(pieces[..|pieces| - 1]) + |pieces[|pieces| - 1]|
  }

  lemma {:induction false} PiecesMeasure<T(!new)>(c: Codec<T>, records: seq<T>)
    requires Faithful(c)
    ensures TotalLength(seq(|records|, i requires 0 <= i < |records| => c.enc(records[i]))) == |Written(c, records)|
  {
    if records != [] {
      var prefix := records[..|records| - 1];
      PiecesMeasure(c, prefix);
      var pieces := seq(|records|, i requires 0 <= i < |records| => c.enc(records[i]));
      assert pieces[..|pieces| - 1] == seq(|prefix|, i requires 0 <= i < |prefix| => c.enc(prefix[i]));
    }
  }

  /** Cutting a whole unmarked record off by the lengths of the pieces before it leaves exactly those records. */
  lemma UnmarkedRecordIsCutOff<T(!new)>(c: Codec<T>, records: seq<T>)
    requires Faithful(c) && records != []
    ensures var raw := Written(c, records);
            var pieces := Pieces(raw);
            pieces != [] && var boundary := TotalLength(pieces[..|pieces| - 1]);
            boundary <= |raw| && raw[..boundary] == Written(c, records[..|records| - 1])
            && raw[boundary..] == pieces[|pieces| - 1]
  {
    hide Pieces;
    var prefix, line := records[..|records| - 1], c.enc(records[|records| - 1]);
    RecordsSplit(c, records, []);
    NoPieces();
    assert Written(c, records) + [] == Written(c, records);
    var pieces := Pieces(Written(c, records));
    PiecesMeasure(c, prefix);
    assert pieces[..|pieces| - 1] == seq(|prefix|, i requires 0 <= i < |prefix| => c.enc(prefix[i]));
    assert pieces[|pieces| - 1] == line;
    assert Written(c, records) == Written(c, prefix) + line;
  }

  // ---- where the two effect readers part ----

  /** A bare CR ends a piece of its own, and the line behind it is a piece again. */
  lemma BareCrSplits(line: seq<byte>)
    requires IsRecordLine(line) && |line| > 1
    ensures Pieces([CR] + line) == [[CR], line]
  {
    hide IsRecordLine;
    var raw := [CR] + line;
    FirstIsNotLf(line);
    assert raw[0] == CR && raw[1] == line[0];
    assert PieceLength(raw) == 1 && raw[..1] == [CR] && raw[1..] == line;
    LineSplits(line, []);
    NoPieces();
    assert line + [] == line;
  }

  lemma FirstIsNotLf(line: seq<byte>)
    requires IsRecordLine(line) && |line| > 1
    ensures line[0] != LF
  {
  }

  /**
   * Bytes on which the readers differ: a bare CR, then any line that is not canonical, such as an x and an LF. Behind
   * the CR the adapter reads nothing more and accepts an empty journal; the verifier reads on and refuses.
   */
  lemma ReadersDifferBehindBareCr(c: Codec<Records.Effect>, s: Records.Source, line: seq<byte>)
    requires IsRecordLine(line) && |line| > 1 && c.dec(line).None?
    ensures var lines := ReadPieces(c, Pieces([CR] + line));
            && lines == [Open("\r"), Junk]
            && EffectReaders.AdapterAccepts(s, lines, map[], 0)
            && forall n :: !EffectReaders.VerifierAccepts(s, lines, map[], n)
  {
    BareCrSplits(line);
    var lines := ReadPieces(c, Pieces([CR] + line));
    assert AsText([CR]) == "\r";
    assert lines == [Open("\r"), Junk];
    EffectReaders.FirstOpenBound(lines);
    assert lines[..0] == [] && EffectReaders.IdsOf(lines[..0]) == {};
    assert !lines[1].Open? && !EffectReaders.Fits(s, lines[1]);
  }

  /** Such a line exists. */
  lemma XIsALine()
    ensures IsRecordLine([120, 10]) && |[120, 10]| > 1
  {
  }
}
