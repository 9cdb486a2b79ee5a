/**
 * The one-pass limit scanner for provider responses: a stack of counters over the raw text, run before any object is
 * built, against the recursive check over the value the text prints.
 */
module Scanner {
  import opened Results

  datatype Envelope = Envelope(maxBytes: nat, maxDepth: nat, maxItems: nat, maxString: nat)

  // ---- characters ----

  predicate IsBidi(code: int) {
    code == 0x061c || code == 0x200e || code == 0x200f || 0x202a <= code <= 0x202e || 0x2066 <= code <= 0x2069
  }

  predicate IsSpace(c: char) {
    var code := c as int;
    || 0x09 <= code <= 0x0d || 0x1c <= code <= 0x20 || code == 0x85 || code == 0xa0 || code == 0x1680
    || 0x2000 <= code <= 0x200a || code == 0x2028 || code == 0x2029 || code == 0x202f || code == 0x205f
       || code == 0x3000
  }

  predicate IsHex(c: char) {
    '0' <= c <= '9' || 'a' <= c <= 'f' || 'A' <= c <= 'F'
  }

  function HexValue(c: char): (v: int)
    requires IsHex(c)
    ensures 0 <= v < 16
  {
    if c <= '9' then c as int - '0' as int
    else if c <= 'F' then c as int - 'A' as int + 10
    else c as int - 'a' as int + 10
  }

  predicate IsCode(digits: string) {
    |digits| == 4 && forall i :: 0 <= i < 4 ==> IsHex(digits[i])
  }

  function CodeOf(digits: string): int
    requires IsCode(digits)
  {
    HexValue(digits[0]) * 4096 + HexValue(digits[1]) * 256 + HexValue(digits[2]) * 16 + HexValue(digits[3])
  }

  predicate AllowedCode(digits: string) {
    IsCode(digits) && CodeOf(digits) >= 32 && !IsBidi(CodeOf(digits))
  }

  function Utf8Length(text: string): nat {
    if text == "" then 0
    else
      var code := text[0] as int;
      (if code < 0x80 then 1 else if code < 0x800 then 2 else if code < 0x10000 then 3 else 4) + Utf8Length(text[1..])
  }

  // ---- the scan, step by step ----

  datatype Frame = Frame(commas: nat, content: bool)

  datatype State = State(stack: seq<Frame>, inString: bool, escaped: bool, length: nat)

  datatype Moved = Moved(state: State, consumed: nat)

  function Top(s: State): Frame
    requires s.stack != []
  {
    s.stack[|s.stack| - 1]
  }

  function WithTop(s: State, f: Frame): State
    requires s.stack != []
  {
    s.(stack := s.stack[|s.stack| - 1 := f])
  }

  /** One more character of the current string. */
  function Counted(e: Envelope, s: State, consumed: nat): Option<Moved> {
    if s.length + 1 > e.maxString then None
    else Some(Moved(s.(escaped := false, length := s.length + 1), consumed))
  }

  function StepInside(e: Envelope, text: string, s: State): (m: Option<Moved>)
    requires text != ""
    ensures m.Some? ==> 1 <= m.value.consumed <= |text|
  {
    var c := text[0];
    if s.escaped then
      if c == 'u' then
        if |text| >= 5 && AllowedCode(text[1..5]) then Counted(e, s, 5) else None
      else if c == '\"' || c == '\\' || c == '/' then Counted(e, s, 1)
      else None
    else if c == '\\' then Some(Moved(s.(escaped := true), 1))
    else if c == '\"' then Some(Moved(s.(inString := false), 1))
    else if c as int < 32 then None
    else Counted(e, s, 1)
  }

  function StepOutside(e: Envelope, c: char, s: State): Option<State> {
    if c == '\"' then
      Some(s.(inString := true, length := 0))
    else if c == '[' || c == '{' then
      if |s.stack| + 1 > e.maxDepth then None else Some(s.(stack := s.stack + [Frame(0, false)]))
    else if c == ']' || c == '}' then
      if s.stack == [] || Top(s).commas + (if Top(s).content then 1 else 0) > e.maxItems then None
      else Some(s.(stack := s.stack[..|s.stack| - 1]))
    else if c == ',' && s.stack != [] then
      if Top(s).commas + 2 > e.maxItems then None
      else Some(WithTop(s, Top(s).(commas := Top(s).commas + 1)))
    else if !IsSpace(c) && s.stack != [] then
      Some(WithTop(s, Top(s).(content := true)))
    else
      Some(s)
  }

  function Step(e: Envelope, text: string, s: State): (m: Option<Moved>)
    requires text != ""
    ensures m.Some? ==> 1 <= m.value.consumed <= |text|
  {
    if s.inString then StepInside(e, text, s)
    else
      match StepOutside(e, text[0], s)
      case None => None
      case Some(t) => Some(Moved(t, 1))
  }

  function Run(e: Envelope, text: string, s: State): Option<State>
    decreases |text|
  {
    if text == "" then Some(s)
    else
      match Step(e, text, s)
      case None => None
      case Some(m) => Run(e, text[m.consumed..], m.state)
  }

  const START := State([], false, false, 0)

  predicate Balanced(s: State) {
    !s.inString && s.stack == []
  }

  /** The scan from here ends outside every string and collection. */
  predicate Verdict(e: Envelope, text: string, s: State) {
    var end := Run(e, text, s);
    end.Some? && Balanced(end.value)
  }

  predicate HasBidi(text: string) {
    exists i :: 0 <= i < |text| && IsBidi(text[i] as int)
  }

  predicate Preflight(e: Envelope, text: string) {
    Utf8Length(text) <= e.maxBytes && !HasBidi(text) && Verdict(e, text, START)
  }

  /** `_preflight_json_text`, on text that decoded. */
  method PreflightJsonText(e: Envelope, text: string) returns (accepted: bool)
    ensures accepted == Preflight(e, text)
  {
    var bytes := 0;
    for i := 0 to |text|
      invariant bytes + Utf8Length(text[i..]) == Utf8Length(text)
    {
      var code := text[i] as int;
      bytes := bytes + (if code < 0x80 then 1 else if code < 0x800 then 2 else if code < 0x10000 then 3 else 4);
      assert text[i..][1..] == text[i + 1..];
    }
    if bytes > e.maxBytes {
      return false;
    }
    for i := 0 to |text|
      invariant forall k :: 0 <= k < i ==> !IsBidi(text[k] as int)
    {
      if IsBidi(text[i] as int) {
        return false;
      }
    }
    accepted := ScanText(e, text);
  }

  /** One turn of the loop, on the text from here on. */
  lemma RunFrom(e: Envelope, text: string, i: nat, s: State)
    requires i < |text|
    ensures var m := Step(e, text[i..], s);
            Run(e, text[i..], s) == if m.None? then None else Run(e, text[i + m.value.consumed..], m.value.state)
  {
    hide Step;
    var m := Step(e, text[i..], s);
    if m.Some? {
      assert text[i..][m.value.consumed..] == text[i + m.value.consumed..];
    }
  }

  /** The loop over an index, a stack of counters and a string counter. */
  method ScanText(e: Envelope, text: string) returns (accepted: bool)
    ensures accepted == Verdict(e, text, START)
  {
    hide AllowedCode, IsSpace, Run;
    EndOfText(e);
    var stack: seq<Frame> := [];
    var inString, escaped, length, index := false, false, 0, 0;
    while index < |text|
      invariant 0 <= index <= |text| && 0 <= length <= e.maxString
      invariant Run(e, text, START) == Run(e, text[index..], State(stack, inString, escaped, length))
      decreases |text| - index
    {
      var c := text[index];
      ghost var from := index;
      RunFrom(e, text, index, State(stack, inString, escaped, length));
      if inString {
        if escaped {
          escaped := false;
          if c == 'u' {
            if index + 5 > |text| || !AllowedCode(text[index + 1..index + 5]) {
              EscapeAt(text, from);
              return false;
            }
            EscapeAt(text, from);
            index := index + 4;
          } else if c != '\"' && c != '\\' && c != '/' {
            return false;
          }
          length := length + 1;
        } else if c == '\\' {
          escaped := true;
        } else if c == '\"' {
          inString := false;
        } else {
          if c as int < 32 {
            return false;
          }
          length := length + 1;
        }
        if length > e.maxString {
          return false;
        }
      } else if c == '\"' {
        inString, length := true, 0;
      } else if c == '[' || c == '{' {
        stack := stack + [Frame(0, false)];
        if |stack| > e.maxDepth {
          return false;
        }
      } else if c == ']' || c == '}' {
        if stack == [] {
          return false;
        }
        var frame := stack[|stack| - 1];
        stack := stack[..|stack| - 1];
        if frame.commas + (if frame.content then 1 else 0) > e.maxItems {
          return false;
        }
      } else if c == ',' && stack != [] {
        var top := stack[|stack| - 1];
        stack := stack[|stack| - 1 := top.(commas := top.commas + 1)];
        if top.commas + 2 > e.maxItems {
          return false;
        }
      } else if !IsSpace(c) && stack != [] {
        stack := stack[|stack| - 1 := stack[|stack| - 1].(content := true)];
      }
      index := index + 1;
    }
    assert text[index..] == "";
    accepted := !inString && stack == [];
  }

  lemma EndOfText(e: Envelope)
    ensures forall s :: Run(e, "", s) == Some(s)
  {
  }

  lemma EscapeAt(text: string, i: nat)
    requires i < |text|
    ensures i + 5 <= |text| ==> text[i..][1..5] == text[i + 1..i + 5]
  {
  }

  // ---- whitespace ----

  /** The characters a text may be spread out with. */
  const SPACES: set<int> :=
    {0x09, 0x0a, 0x0b, 0x0c, 0x0d, 0x1c, 0x1d, 0x1e, 0x1f, 0x20, 0x85, 0xa0, 0x1680, 0x2000, 0x2001, 0x2002, 0x2003,
     0x2004, 0x2005, 0x2006, 0x2007, 0x2008, 0x2009, 0x200a, 0x2028, 0x2029, 0x202f, 0x205f, 0x3000}

  /** Inside a collection that has shown nothing yet, exactly these leave it empty; other plain characters fill it. */
  lemma SpacesAreSkippedExactly(e: Envelope, c: char, s: State)
    requires s.stack != [] && !Top(s).content && c !in {'\"', '[', ']', '{', '}', ','}
    ensures StepOutside(e, c, s) == Some(if c as int in SPACES then s else WithTop(s, Top(s).(content := true)))
  {
    assert IsSpace(c) <==> c as int in SPACES;
  }
}
