/** Bytes, LF search, UTF-8 validity and decimal sizes. */
module Bytes {
  import opened Results

  newtype byte = b: int | 0 <= b < 256

  const LF: byte := 10

  /** The position of the first LF, or the length. */
  function FindLf(s: seq<byte>): (n: nat)
    ensures n <= |s| && (forall i :: 0 <= i < n ==> s[i] != LF) && (n < |s| ==> s[n] == LF)
  {
    if s == [] || s[0] == LF then 0
    else
      var n := FindLf(s[1..]);
      assert forall i :: 1 <= i < n + 1 ==> s[i] == s[1..][i - 1];
      1 + n
  }

  /** One LF, at the end. */
  predicate IsLine(s: seq<byte>) {
    s != [] && s[|s| - 1] == LF && forall i :: 0 <= i < |s| - 1 ==> s[i] != LF
  }

  lemma LineIsFound(line: seq<byte>, rest: seq<byte>)
    requires IsLine(line)
    ensures FindLf(line + rest) == |line| - 1
    ensures (line + rest)[..|line|] == line && (line + rest)[|line|..] == rest
  {
    var all := line + rest;
    assert all[|line| - 1] == LF;
    assert forall i :: 0 <= i < |line| - 1 ==> all[i] == line[i];
  }

  lemma LineThenMore(line: seq<byte>, rest: seq<byte>, more: seq<byte>)
    requires IsLine(line)
    ensures FindLf((line + rest) + more) == |line| - 1
    ensures ((line + rest) + more)[..|line|] == line && ((line + rest) + more)[|line|..] == rest + more
  {
    hide IsLine;
    assert (line + rest) + more == line + (rest + more);
    LineIsFound(line, rest + more);
  }

  lemma {:induction false} FirstLineSplits(s: seq<byte>)
    requires FindLf(s) < |s|
    ensures IsLine(s[..FindLf(s) + 1]) && s == s[..FindLf(s) + 1] + s[FindLf(s) + 1..]
  {
    hide FindLf;
    var n := FindLf(s);
    assert s[..n + 1][n] == LF;
  }

  /** The first line of a text is the first line of any text it begins. */
  lemma SameFirstLine(s: seq<byte>, more: seq<byte>)
    requires FindLf(s) < |s|
    ensures FindLf(s + more) == FindLf(s)
    ensures (s + more)[..FindLf(s) + 1] == s[..FindLf(s) + 1]
            && (s + more)[FindLf(s) + 1..] == s[FindLf(s) + 1..] + more
  {
    hide FindLf, IsLine;
    FirstLineSplits(s);
    LineThenMore(s[..FindLf(s) + 1], s[FindLf(s) + 1..], more);
  }

  predicate IsContinuation(b: byte) {
    0x80 <= b <= 0xbf
  }

  /** The length of the well-formed sequence a text starts with, or 0. */
  function Utf8Head(s: seq<byte>): (n: nat)
    requires s != []
    ensures n <= |s|
  {
    var b := s[0];
    if b <= 0x7f then 1
    else if 0xc2 <= b <= 0xdf && |s| >= 2 && IsContinuation(s[1]) then 2
    else if 0xe0 <= b <= 0xef && |s| >= 3 && IsContinuation(s[1]) && IsContinuation(s[2])
            && (b == 0xe0 ==> s[1] >= 0xa0) && (b == 0xed ==> s[1] <= 0x9f) then 3
    else if 0xf0 <= b <= 0xf4 && |s| >= 4 && IsContinuation(s[1]) && IsContinuation(s[2]) && IsContinuation(s[3])
            && (b == 0xf0 ==> s[1] >= 0x90) && (b == 0xf4 ==> s[1] <= 0x8f) then 4
    else 0
  }

  predicate IsUtf8(s: seq<byte>)
    decreases |s|
  {
    s == [] || (Utf8Head(s) > 0 && IsUtf8(s[Utf8Head(s)..]))
  }

  // ---- UTF-8, from the side of the characters ----

  /** A Unicode scalar value: any code point but a surrogate. */
  predicate IsScalar(n: int) {
    0 <= n <= 0xd7ff || 0xe000 <= n <= 0x10ffff
  }

  function Encoded(n: int): seq<byte>
    requires IsScalar(n)
  {
    if n < 0x80 then [n as byte]
    else if n < 0x800 then [(0xc0 + n / 64) as byte, (0x80 + n % 64) as byte]
    else if n < 0x10000 then [(0xe0 + n / 4096) as byte, (0x80 + n / 64 % 64) as byte, (0x80 + n % 64) as byte]
    else [(0xf0 + n / 262144) as byte, (0x80 + n / 4096 % 64) as byte, (0x80 + n / 64 % 64) as byte,
          (0x80 + n % 64) as byte]
  }

  ghost predicate AllScalars(chars: seq<int>) {
    forall i :: 0 <= i < |chars| ==> IsScalar(chars[i])
  }

  function EncodedAll(chars: seq<int>): seq<byte>
    requires forall i :: 0 <= i < |chars| ==> IsScalar(chars[i])
  {
    if chars == [] then [] else Encoded(chars[0]) + EncodedAll(chars[1..])
  }

  lemma ScalarIsHead(n: int, rest: seq<byte>)
    requires IsScalar(n)
    ensures Encoded(n) + rest != [] && Utf8Head(Encoded(n) + rest) == |Encoded(n)| > 0
  {
    var s := Encoded(n) + rest;
    assert s[0] == Encoded(n)[0];
    if n >= 0x80 {
      assert s[1] == Encoded(n)[1];
    }
    if n >= 0x800 {
      assert s[2] == Encoded(n)[2];
    }
    if n >= 0x10000 {
      assert s[3] == Encoded(n)[3];
    }
  }

  /** Base-64 digits come back out of the number they make. */
  lemma DigitsOf(a: int, b: int, c: int, d: int)
    requires 0 <= a && 0 <= b < 64 && 0 <= c < 64 && 0 <= d < 64
    ensures var n := a * 262144 + b * 4096 + c * 64 + d;
            n % 64 == d && n / 64 == a * 4096 + b * 64 + c && n / 64 % 64 == c && n / 4096 == a * 64 + b
            && n / 4096 % 64 == b && n / 262144 == a
  {
    var n := a * 262144 + b * 4096 + c * 64 + d;
    assert n == 64 * (a * 4096 + b * 64 + c) + d;
    assert n == 4096 * (a * 64 + b) + (c * 64 + d);
    assert a * 4096 + b * 64 + c == 64 * (a * 64 + b) + c;
  }

  lemma LongHeadIsScalar(s: seq<byte>) returns (n: int)
    requires s != [] && Utf8Head(s) == 4
    ensures IsScalar(n) && Encoded(n) == s[..4]
  {
    var a, b, c, d := s[0] as int - 0xf0, s[1] as int - 0x80, s[2] as int - 0x80, s[3] as int - 0x80;
    n := a * 262144 + b * 4096 + c * 64 + d;
    DigitsOf(a, b, c, d);
    assert s[..4] == [s[0], s[1], s[2], s[3]];
  }

  lemma MiddleHeadIsScalar(s: seq<byte>) returns (n: int)
    requires s != [] && Utf8Head(s) == 3
    ensures IsScalar(n) && Encoded(n) == s[..3]
  {
    var b, c, d := s[0] as int - 0xe0, s[1] as int - 0x80, s[2] as int - 0x80;
    n := b * 4096 + c * 64 + d;
    DigitsOf(0, b, c, d);
    assert s[..3] == [s[0], s[1], s[2]];
  }

  lemma HeadIsScalar(s: seq<byte>) returns (n: int)
    requires s != [] && Utf8Head(s) > 0
    ensures IsScalar(n) && Encoded(n) == s[..Utf8Head(s)]
  {
    var k := Utf8Head(s);
    if k == 4 {
      n := LongHeadIsScalar(s);
    } else if k == 3 {
      n := MiddleHeadIsScalar(s);
    } else if k == 2 {
      n := (s[0] as int - 0xc0) * 64 + (s[1] as int - 0x80);
      assert s[..2] == [s[0], s[1]];
    } else {
      n := s[0] as int;
      assert s[..1] == [s[0]];
    }
  }

  /** The bytes a decoder accepts are exactly the encodings of sequences of scalar values. */
  lemma {:induction false} Utf8IsEncoding(s: seq<byte>)
    ensures IsUtf8(s) <==> exists chars :: AllScalars(chars) && EncodedAll(chars) == s
    decreases |s|
  {
    hide Encoded, Utf8Head;
    if s == [] {
      assert AllScalars([]) && EncodedAll([]) == s;
    } else {
      if Utf8Head(s) > 0 {
        var k := Utf8Head(s);
        Utf8IsEncoding(s[k..]);
        if IsUtf8(s[k..]) {
          var n := HeadIsScalar(s);
          var chars :| AllScalars(chars) && EncodedAll(chars) == s[k..];
          var all := [n] + chars;
          assert all[1..] == chars && AllScalars(all) && s == s[..k] + s[k..];
          assert EncodedAll(all) == s;
        }
      }
      if chars :| AllScalars(chars) && EncodedAll(chars) == s {
        ScalarIsHead(chars[0], EncodedAll(chars[1..]));
        assert s[Utf8Head(s)..] == EncodedAll(chars[1..]);
        assert AllScalars(chars[1..]);
      }
    }
  }
}
