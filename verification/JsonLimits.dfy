/**
 * Values, how they print compactly, and the recursive limit check; and the proof that the one-pass scanner of their
 * text decides it.
 */
module JsonLimits {
  import opened Results
  import opened Scanner

  /** One character as a JSON string spells it: itself, behind a backslash, or by its four-digit code. */
  datatype CharUnit = Raw(c: char) | Escaped(c: char) | Coded(digits: string)

  /** Scalars other than strings appear as one token; collections keep their order. */
  datatype Json = Token(text: string) | Text(units: seq<CharUnit>) | Arr(items: Items) | Obj(fields: Fields)
  datatype Items = NoItems | Item(head: Json, tail: Items)
  datatype Fields = NoFields | Field(key: seq<CharUnit>, value: Json, rest: Fields)

  // ---- allowed characters ----

  predicate UnitAllowed(u: CharUnit) {
    match u
    case Raw(c) => c != '\"' && c != '\\' && c as int >= 32 && !IsBidi(c as int)
    case Escaped(c) => c == '\"' || c == '\\' || c == '/'
    case Coded(digits) => AllowedCode(digits)
  }

  predicate UnitsAllowed(units: seq<CharUnit>) {
    forall i :: 0 <= i < |units| ==> UnitAllowed(units[i])
  }

  /** Letters and digits of integers, true, false and null. */
  predicate TokenChar(c: char) {
    c == '-' || '0' <= c <= '9' || 'a' <= c <= 'z'
  }

  predicate Allowed(v: Json) {
    match v
    case Token(text) => text != "" && forall i :: 0 <= i < |text| ==> TokenChar(text[i])
    case Text(units) => UnitsAllowed(units)
    case Arr(items) => ItemsAllowed(items)
    case Obj(fields) => FieldsAllowed(fields)
  }

  predicate ItemsAllowed(items: Items) {
    match items
    case NoItems => true
    case Item(head, tail) => Allowed(head) && ItemsAllowed(tail)
  }

  predicate FieldsAllowed(fields: Fields) {
    match fields
    case NoFields => true
    case Field(key, value, rest) => UnitsAllowed(key) && Allowed(value) && FieldsAllowed(rest)
  }

  // ---- compact printing ----

  function PrintUnit(u: CharUnit): string {
    match u
    case Raw(c) => [c]
    case Escaped(c) => ['\\', c]
    case Coded(digits) => ['\\', 'u'] + digits
  }

  function PrintUnits(units: seq<CharUnit>): string {
    if units == [] then "" else PrintUnit(units[0]) + PrintUnits(units[1..])
  }

  function PrintText(units: seq<CharUnit>): string {
    ['\"'] + (PrintUnits(units) + ['\"'])
  }

  function Print(v: Json): string {
    match v
    case Token(text) => text
    case Text(units) => PrintText(units)
    case Arr(items) => ['['] + (PrintItems(items) + [']'])
    case Obj(fields) => ['{'] + (PrintFields(fields) + ['}'])
  }

  function PrintItems(items: Items): string {
    match items
    case NoItems => ""
    case Item(head, NoItems) => Print(head)
    case Item(head, tail) => Print(head) + ([','] + PrintItems(tail))
  }

  function PrintFields(fields: Fields): string {
    match fields
    case NoFields => ""
    case Field(key, value, NoFields) => PrintText(key) + ([':'] + Print(value))
    case Field(key, value, rest) => PrintText(key) + ([':'] + (Print(value) + ([','] + PrintFields(rest))))
  }

  // ---- the recursive check ----

  function ItemCount(items: Items): nat {
    match items case NoItems => 0 case Item(_, tail) => 1 + ItemCount(tail)
  }

  function FieldCount(fields: Fields): nat {
    match fields case NoFields => 0 case Field(_, _, rest) => 1 + FieldCount(rest)
  }

  /** Nesting, every collection's size and every string's or key's length, below a value at this depth. */
  predicate Within(v: Json, e: Envelope, depth: nat) {
    match v
    case Token(_) => true
    case Text(units) => |units| <= e.maxString
    case Arr(items) => depth + 1 <= e.maxDepth && ItemCount(items) <= e.maxItems && ItemsWithin(items, e, depth + 1)
    case Obj(fields) =>
      depth + 1 <= e.maxDepth && FieldCount(fields) <= e.maxItems && FieldsWithin(fields, e, depth + 1)
  }

  predicate ItemsWithin(items: Items, e: Envelope, depth: nat) {
    match items
    case NoItems => true
    case Item(head, tail) => Within(head, e, depth) && ItemsWithin(tail, e, depth)
  }

  predicate FieldsWithin(fields: Fields, e: Envelope, depth: nat) {
    match fields
    case NoFields => true
    case Field(key, value, rest) => |key| <= e.maxString && Within(value, e, depth) && FieldsWithin(rest, e, depth)
  }

  // ---- small steps of the scan ----

  lemma OneOutside(e: Envelope, c: char, rest: string, s: State)
    requires !s.inString
    ensures var next := StepOutside(e, c, s);
            Verdict(e, [c] + rest, s) == (next.Some? && Verdict(e, rest, next.value))
  {
    hide StepOutside;
    assert ([c] + rest)[0] == c && ([c] + rest)[1..] == rest;
  }

  /** Outside a string the counter of the last one no longer matters. */
  lemma {:induction false} LengthForgotten(e: Envelope, text: string, s: State, length: nat)
    requires !s.inString
    ensures Verdict(e, text, s) == Verdict(e, text, s.(length := length))
    decreases |text|
  {
    hide IsSpace;
    if text != "" {
      var t := s.(length := length);
      var a, b := StepOutside(e, text[0], s), StepOutside(e, text[0], t);
      assert a.Some? == b.Some?;
      if a.Some? {
        if a.value.inString {
          assert a == b;
        } else {
          assert b.value == a.value.(length := length);
          LengthForgotten(e, text[1..], a.value, length);
        }
      }
    }
  }

  lemma UnitStep(e: Envelope, u: CharUnit, rest: string, s: State)
    requires UnitAllowed(u) && s.inString && !s.escaped
    ensures Verdict(e, PrintUnit(u) + rest, s)
            == (s.length + 1 <= e.maxString && Verdict(e, rest, s.(length := s.length + 1)))
  {
    hide AllowedCode, IsBidi;
    var text := PrintUnit(u) + rest;
    match u
    case Raw(c) =>
      assert text[0] == c && text[1..] == rest;
    case Escaped(c) =>
      assert text[0] == '\\' && text[1..][0] == c && text[1..][1..] == rest;
      assert Verdict(e, text, s) == Verdict(e, text[1..], s.(escaped := true));
    case Coded(digits) =>
      FourDigits(digits);
      assert text[0] == '\\' && text[1..][0] == 'u' && text[1..][1..5] == digits && text[1..][5..] == rest;
      assert Verdict(e, text, s) == Verdict(e, text[1..], s.(escaped := true));
  }

  lemma FourDigits(digits: string)
    requires AllowedCode(digits)
    ensures |digits| == 4
  {
  }

  lemma {:induction false} UnitsStep(e: Envelope, units: seq<CharUnit>, rest: string, s: State)
    requires UnitsAllowed(units) && s.inString && !s.escaped && s.length <= e.maxString
    ensures Verdict(e, PrintUnits(units) + rest, s)
            == (s.length + |units| <= e.maxString && Verdict(e, rest, s.(length := s.length + |units|)))
    decreases |units|
  {
    hide UnitAllowed, Verdict;
    if units == [] {
      assert PrintUnits(units) + rest == rest;
    } else {
      assert PrintUnits(units) + rest == PrintUnit(units[0]) + (PrintUnits(units[1..]) + rest);
      UnitStep(e, units[0], PrintUnits(units[1..]) + rest, s);
      if s.length < e.maxString {
        UnitsStep(e, units[1..], rest, s.(length := s.length + 1));
      }
    }
  }

  lemma TextStep(e: Envelope, units: seq<CharUnit>, rest: string, s: State)
    requires UnitsAllowed(units) && !s.inString && !s.escaped
    ensures Verdict(e, PrintText(units) + rest, s) == (|units| <= e.maxString && Verdict(e, rest, s))
  {
    hide UnitsAllowed;
    var quoted := s.(inString := true, length := 0);
    var tail := ['\"'] + rest;
    assert PrintText(units) + rest == ['\"'] + (PrintUnits(units) + tail);
    OneOutside(e, '\"', PrintUnits(units) + tail, s);
    UnitsStep(e, units, tail, quoted);
    if |units| <= e.maxString {
      assert tail[0] == '\"' && tail[1..] == rest;
      LengthForgotten(e, rest, s, |units|);
    }
  }

  /** A token only marks the collection it stands in as not empty. */
  function PastToken(s: State): State {
    if s.stack == [] then s else WithTop(s, Top(s).(content := true))
  }

  lemma TokenCharStep(e: Envelope, c: char, rest: string, s: State)
    requires TokenChar(c) && !s.inString
    ensures Verdict(e, [c] + rest, s) == Verdict(e, rest, PastToken(s))
  {
    OneOutside(e, c, rest, s);
  }

  lemma {:induction false} TokenStep(e: Envelope, text: string, rest: string, s: State)
    requires text != "" && (forall i :: 0 <= i < |text| ==> TokenChar(text[i])) && !s.inString
    ensures Verdict(e, text + rest, s) == Verdict(e, rest, PastToken(s))
    decreases |text|
  {
    hide Verdict, TokenChar;
    assert text + rest == [text[0]] + (text[1..] + rest);
    TokenCharStep(e, text[0], text[1..] + rest, s);
    if text[1..] == "" {
      assert text[1..] + rest == rest;
    } else {
      TokenStep(e, text[1..], rest, PastToken(s));
      assert PastToken(PastToken(s)) == PastToken(s);
    }
  }

  // ---- the scan over whole values ----

  function Past(v: Json, s: State): State {
    if v.Token? then PastToken(s) else s
  }

  function Comma(s: State): State
    requires s.stack != []
  {
    WithTop(s, Top(s).(commas := Top(s).commas + 1))
  }

  /** Same collections around, one frame on top with this many commas. */
  predicate Inside(s: State, outer: State, commas: int) {
    && !s.inString && !s.escaped && s.length == outer.length
    && |s.stack| == |outer.stack| + 1 && s.stack[..|outer.stack|] == outer.stack && Top(s).commas == commas
  }

  function PastItems(items: Items, s: State): State
    requires s.stack != []
    decreases items
  {
    match items
    case NoItems => s
    case Item(head, NoItems) => Past(head, s)
    case Item(head, tail) => PastItems(tail, Comma(Past(head, s)))
  }

  function PastFields(fields: Fields, s: State): State
    requires s.stack != []
    decreases fields
  {
    match fields
    case NoFields => s
    case Field(_, value, NoFields) => Past(value, PastToken(s))
    case Field(_, value, rest) => PastFields(rest, Comma(Past(value, PastToken(s))))
  }

  lemma {:induction false} ItemsCounted(items: Items, s: State, outer: State, commas: int)
    requires Inside(s, outer, commas)
    ensures Inside(PastItems(items, s), outer, commas + (if items.NoItems? then 0 else ItemCount(items) - 1))
    decreases items
  {
    if items.Item? && items.tail.Item? {
      ItemsCounted(items.tail, Comma(Past(items.head, s)), outer, commas + 1);
    }
  }

  lemma {:induction false} FieldsCounted(fields: Fields, s: State, outer: State, commas: int)
    requires Inside(s, outer, commas)
    ensures Inside(PastFields(fields, s), outer, commas + (if fields.NoFields? then 0 else FieldCount(fields) - 1))
    decreases fields
  {
    if fields.Field? && fields.rest.Field? {
      FieldsCounted(fields.rest, Comma(Past(fields.value, PastToken(s))), outer, commas + 1);
    }
  }

  lemma OpenStep(e: Envelope, c: char, rest: string, s: State)
    requires (c == '[' || c == '{') && !s.inString
    ensures Verdict(e, [c] + rest, s)
            == (|s.stack| + 1 <= e.maxDepth && Verdict(e, rest, s.(stack := s.stack + [Frame(0, false)])))
  {
    OneOutside(e, c, rest, s);
  }

  /** With a positive item limit, the closing check can only repeat what the commas decided. */
  lemma CloseStep(e: Envelope, c: char, rest: string, s: State, outer: State, commas: nat)
    requires (c == ']' || c == '}') && !outer.inString && !outer.escaped
    requires Inside(s, outer, commas) && commas + 1 <= e.maxItems
    ensures Verdict(e, [c] + rest, s) == Verdict(e, rest, outer)
  {
    OneOutside(e, c, rest, s);
    assert s.stack[..|s.stack| - 1] == outer.stack;
    assert s.(stack := outer.stack) == outer;
  }

  lemma CommaStep(e: Envelope, rest: string, s: State)
    requires !s.inString && s.stack != []
    ensures Verdict(e, [','] + rest, s) == (Top(s).commas + 2 <= e.maxItems && Verdict(e, rest, Comma(s)))
  {
    OneOutside(e, ',', rest, s);
  }

  lemma ColonStep(e: Envelope, rest: string, s: State)
    requires !s.inString
    ensures Verdict(e, [':'] + rest, s) == Verdict(e, rest, PastToken(s))
  {
    OneOutside(e, ':', rest, s);
  }

  /** Scanning one printed value: refused exactly when the recursive check refuses it, else it leaves no trace. */
  lemma {:induction false} ValueDecides(e: Envelope, v: Json, rest: string, s: State)
    requires Allowed(v) && !s.inString && !s.escaped && e.maxItems >= 1
    ensures Verdict(e, Print(v) + rest, s) == (Within(v, e, |s.stack|) && Verdict(e, rest, Past(v, s)))
    decreases v, 1
  {
    hide Verdict, StepOutside, TokenChar, UnitsAllowed;
    match v
    case Token(text) => TokenStep(e, text, rest, s);
    case Text(units) => TextStep(e, units, rest, s);
    case Arr(items) => ArrayDecides(e, items, rest, s);
    case Obj(fields) => ObjectDecides(e, fields, rest, s);
  }

  lemma {:induction false} ArrayDecides(e: Envelope, items: Items, rest: string, s: State)
    requires ItemsAllowed(items) && !s.inString && !s.escaped && e.maxItems >= 1
    ensures Verdict(e, Print(Arr(items)) + rest, s) == (Within(Arr(items), e, |s.stack|) && Verdict(e, rest, s))
    decreases items, 2
  {
    hide Verdict, StepOutside, PrintItems, ItemsWithin, ItemsAllowed, PastItems;
    var inner := s.(stack := s.stack + [Frame(0, false)]);
    var tail := [']'] + rest;
    assert Print(Arr(items)) + rest == ['['] + (PrintItems(items) + tail);
    OpenStep(e, '[', PrintItems(items) + tail, s);
    assert Inside(inner, s, 0);
    ItemsDecide(e, items, tail, inner, s, 0);
    ItemsCounted(items, inner, s, 0);
    if ItemCount(items) <= e.maxItems {
      CloseStep(e, ']', rest, PastItems(items, inner), s, if items.NoItems? then 0 else ItemCount(items) - 1);
    }
  }

  lemma {:induction false} ObjectDecides(e: Envelope, fields: Fields, rest: string, s: State)
    requires FieldsAllowed(fields) && !s.inString && !s.escaped && e.maxItems >= 1
    ensures Verdict(e, Print(Obj(fields)) + rest, s) == (Within(Obj(fields), e, |s.stack|) && Verdict(e, rest, s))
    decreases fields, 2
  {
    hide Verdict, StepOutside, PrintFields, FieldsWithin, FieldsAllowed, PastFields;
    var inner := s.(stack := s.stack + [Frame(0, false)]);
    var tail := ['}'] + rest;
    assert Print(Obj(fields)) + rest == ['{'] + (PrintFields(fields) + tail);
    OpenStep(e, '{', PrintFields(fields) + tail, s);
    assert Inside(inner, s, 0);
    FieldsDecide(e, fields, tail, inner, s, 0);
    FieldsCounted(fields, inner, s, 0);
    if FieldCount(fields) <= e.maxItems {
      CloseStep(e, '}', rest, PastFields(fields, inner), s, if fields.NoFields? then 0 else FieldCount(fields) - 1);
    }
  }

  lemma {:induction false} ItemsDecide(e: Envelope, items: Items, rest: string, s: State, outer: State, commas: nat)
    requires ItemsAllowed(items) && Inside(s, outer, commas) && commas + 1 <= e.maxItems
    ensures Verdict(e, PrintItems(items) + rest, s)
            == (ItemsWithin(items, e, |s.stack|) && (items.NoItems? || commas + ItemCount(items) <= e.maxItems)
                && Verdict(e, rest, PastItems(items, s)))
    decreases items, 0
  {
    hide Verdict, StepOutside, Allowed, Within;
    match items
    case NoItems => assert PrintItems(items) + rest == rest;
    case Item(head, NoItems) =>
      assert ItemsWithin(items.tail, e, |s.stack|) && ItemCount(items.tail) == 0;
      ValueDecides(e, head, rest, s);
    case Item(head, tail) =>
      var after := Past(head, s);
      assert PrintItems(items) + rest == Print(head) + ([','] + (PrintItems(tail) + rest));
      ValueDecides(e, head, [','] + (PrintItems(tail) + rest), s);
      CommaStep(e, PrintItems(tail) + rest, after);
      if commas + 2 <= e.maxItems {
        ItemsDecide(e, tail, rest, Comma(after), outer, commas + 1);
      }
  }

  lemma {:induction false} FieldsDecide(e: Envelope, fields: Fields, rest: string, s: State, outer: State, commas: nat)
    requires FieldsAllowed(fields) && Inside(s, outer, commas) && commas + 1 <= e.maxItems
    ensures Verdict(e, PrintFields(fields) + rest, s)
            == (FieldsWithin(fields, e, |s.stack|) && (fields.NoFields? || commas + FieldCount(fields) <= e.maxItems)
                && Verdict(e, rest, PastFields(fields, s)))
    decreases fields, 0
  {
    hide Verdict, StepOutside, Allowed, Within, UnitsAllowed, PrintText;
    match fields
    case NoFields => assert PrintFields(fields) + rest == rest;
    case Field(key, value, NoFields) =>
      assert PrintFields(fields) + rest == PrintText(key) + ([':'] + (Print(value) + rest));
      FieldStep(e, key, value, rest, s);
    case Field(key, value, more) =>
      var after := Past(value, PastToken(s));
      var tail := [','] + (PrintFields(more) + rest);
      assert PrintFields(fields) + rest == PrintText(key) + ([':'] + (Print(value) + tail));
      FieldStep(e, key, value, tail, s);
      CommaStep(e, PrintFields(more) + rest, after);
      if commas + 2 <= e.maxItems {
        FieldsDecide(e, more, rest, Comma(after), outer, commas + 1);
      }
  }

  lemma {:induction false} FieldStep(e: Envelope, key: seq<CharUnit>, value: Json, rest: string, s: State)
    requires UnitsAllowed(key) && Allowed(value) && !s.inString && !s.escaped && s.stack != [] && e.maxItems >= 1
    ensures Verdict(e, PrintText(key) + ([':'] + (Print(value) + rest)), s)
            == (|key| <= e.maxString && Within(value, e, |s.stack|) && Verdict(e, rest, Past(value, PastToken(s))))
    decreases value, 2
  {
    hide Verdict, StepOutside, Allowed, Within, UnitsAllowed, PrintText;
    TextStep(e, key, [':'] + (Print(value) + rest), s);
    ColonStep(e, Print(value) + rest, s);
    ValueDecides(e, value, rest, PastToken(s));
  }

  // ---- the theorem ----

  lemma {:induction false} NoBidiInUnits(units: seq<CharUnit>)
    requires UnitsAllowed(units)
    ensures !HasBidi(PrintUnits(units))
  {
    if units != [] {
      NoBidiInUnits(units[1..]);
      NoBidiInUnit(units[0]);
      NoBidiJoined(PrintUnit(units[0]), PrintUnits(units[1..]));
    }
  }

  lemma NoBidiInUnit(u: CharUnit)
    requires UnitAllowed(u)
    ensures !HasBidi(PrintUnit(u))
  {
  }

  lemma NoBidiJoined(a: string, b: string)
    requires !HasBidi(a) && !HasBidi(b)
    ensures !HasBidi(a + b)
  {
    hide IsBidi;
    forall i | 0 <= i < |a + b| ensures !IsBidi((a + b)[i] as int) {
      if i < |a| {
        assert !IsBidi(a[i] as int);
      } else {
        assert !IsBidi(b[i - |a|] as int);
      }
    }
  }

  lemma NoBidiWrapped(c: char, a: string, d: char)
    requires !HasBidi(a) && !IsBidi(c as int) && !IsBidi(d as int)
    ensures !HasBidi([c] + (a + [d]))
  {
    hide IsBidi;
    NoBidiJoined(a, [d]);
    NoBidiJoined([c], a + [d]);
  }

  lemma {:induction false} NoBidiInText(units: seq<CharUnit>)
    requires UnitsAllowed(units)
    ensures !HasBidi(PrintText(units))
  {
    NoBidiInUnits(units);
    NoBidiWrapped('\"', PrintUnits(units), '\"');
  }

  /** Allowed characters print without bidirectional controls. */
  lemma {:induction false} NoBidiPrinted(v: Json)
    requires Allowed(v)
    ensures !HasBidi(Print(v))
    decreases v, 1
  {
    hide HasBidi, UnitsAllowed;
    match v
    case Token(text) => TokenHasNoBidi(text);
    case Text(units) => NoBidiInText(units);
    case Arr(items) =>
      NoBidiInItems(items);
      NoBidiWrapped('[', PrintItems(items), ']');
    case Obj(fields) =>
      NoBidiInFields(fields);
      NoBidiWrapped('{', PrintFields(fields), '}');
  }

  lemma TokenHasNoBidi(text: string)
    requires forall i :: 0 <= i < |text| ==> TokenChar(text[i])
    ensures !HasBidi(text)
  {
  }

  lemma PlainHasNoBidi()
    ensures !HasBidi([',']) && !HasBidi([':']) && !HasBidi("")
  {
  }

  lemma {:induction false} NoBidiInItems(items: Items)
    requires ItemsAllowed(items)
    ensures !HasBidi(PrintItems(items))
    decreases items, 0
  {
    hide HasBidi, Allowed;
    PlainHasNoBidi();
    if items.Item? {
      NoBidiPrinted(items.head);
      NoBidiInItems(items.tail);
      NoBidiJoined([','], PrintItems(items.tail));
      NoBidiJoined(Print(items.head), [','] + PrintItems(items.tail));
    }
  }

  lemma {:induction false} NoBidiInFields(fields: Fields)
    requires FieldsAllowed(fields)
    ensures !HasBidi(PrintFields(fields))
    decreases fields, 0
  {
    hide HasBidi, Allowed, UnitsAllowed, PrintText;
    PlainHasNoBidi();
    if fields.Field? {
      var tail := [','] + PrintFields(fields.rest);
      NoBidiInText(fields.key);
      NoBidiPrinted(fields.value);
      NoBidiInFields(fields.rest);
      NoBidiJoined([','], PrintFields(fields.rest));
      NoBidiJoined(Print(fields.value), tail);
      NoBidiJoined([':'], Print(fields.value));
      NoBidiJoined([':'], Print(fields.value) + tail);
      NoBidiJoined(PrintText(fields.key), [':'] + Print(fields.value));
      NoBidiJoined(PrintText(fields.key), [':'] + (Print(fields.value) + tail));
    }
  }

  /**
   * Scanner exactness. For every value printed compactly with allowed characters, and every envelope that allows at
   * least one item, the one-pass scanner accepts the text if and only if the bytes are within bound and the recursive
   * check of nesting, sizes and lengths passes.
   */
  lemma ScannerDecidesLimits(e: Envelope, v: Json)
    requires Allowed(v) && e.maxItems >= 1
    ensures Preflight(e, Print(v)) <==> Utf8Length(Print(v)) <= e.maxBytes && Within(v, e, 0)
  {
    hide Within, Allowed, Print;
    NoBidiPrinted(v);
    ValueDecides(e, v, "", START);
    assert Print(v) + "" == Print(v);
    assert Verdict(e, "", Past(v, START));
  }

  // ---- nesting and sizes apart, and characters as the parser counts them ----

  function Max(a: nat, b: nat): nat {
    if a < b then b else a
  }

  function Depth(v: Json): nat {
    match v
    case Token(_) => 0
    case Text(_) => 0
    case Arr(items) => 1 + ItemsDepth(items)
    case Obj(fields) => 1 + FieldsDepth(fields)
  }

  function ItemsDepth(items: Items): nat {
    match items case NoItems => 0 case Item(head, tail) => Max(Depth(head), ItemsDepth(tail))
  }

  function FieldsDepth(fields: Fields): nat {
    match fields case NoFields => 0 case Field(_, value, rest) => Max(Depth(value), FieldsDepth(rest))
  }

  predicate IsHigh(u: CharUnit) {
    u.Coded? && IsCode(u.digits) && 0xd800 <= CodeOf(u.digits) <= 0xdbff
  }

  predicate IsLow(u: CharUnit) {
    u.Coded? && IsCode(u.digits) && 0xdc00 <= CodeOf(u.digits) <= 0xdfff
  }

  /** The length of the string the parser builds: an escaped surrogate pair becomes one character. */
  function ParsedLength(units: seq<CharUnit>): nat {
    if units == [] then 0
    else if |units| >= 2 && IsHigh(units[0]) && IsLow(units[1]) then 1 + ParsedLength(units[2..])
    else 1 + ParsedLength(units[1..])
  }

  /** `_check_constructed_limits`: sizes and lengths, not nesting, of the value that was built. */
  predicate Constructed(v: Json, e: Envelope) {
    match v
    case Token(_) => true
    case Text(units) => ParsedLength(units) <= e.maxString
    case Arr(items) => ItemCount(items) <= e.maxItems && ItemsConstructed(items, e)
    case Obj(fields) => FieldCount(fields) <= e.maxItems && FieldsConstructed(fields, e)
  }

  predicate ItemsConstructed(items: Items, e: Envelope) {
    match items
    case NoItems => true
    case Item(head, tail) => Constructed(head, e) && ItemsConstructed(tail, e)
  }

  predicate FieldsConstructed(fields: Fields, e: Envelope) {
    match fields
    case NoFields => true
    case Field(key, value, rest) =>
      ParsedLength(key) <= e.maxString && Constructed(value, e) && FieldsConstructed(rest, e)
  }

  /** No string is within the limit only because a pair of its escapes will merge. */
  predicate NoMergedExcess(v: Json, e: Envelope) {
    match v
    case Token(_) => true
    case Text(units) => UnitsFit(units, e)
    case Arr(items) => ItemsFit(items, e)
    case Obj(fields) => FieldsFit(fields, e)
  }

  predicate UnitsFit(units: seq<CharUnit>, e: Envelope) {
    ParsedLength(units) <= e.maxString ==> |units| <= e.maxString
  }

  predicate ItemsFit(items: Items, e: Envelope) {
    match items
    case NoItems => true
    case Item(head, tail) => NoMergedExcess(head, e) && ItemsFit(tail, e)
  }

  predicate FieldsFit(fields: Fields, e: Envelope) {
    match fields
    case NoFields => true
    case Field(key, value, rest) => UnitsFit(key, e) && NoMergedExcess(value, e) && FieldsFit(rest, e)
  }

  lemma {:induction false} ParsedIsShorter(units: seq<CharUnit>)
    ensures ParsedLength(units) <= |units|
    decreases |units|
  {
    if units != [] {
      ParsedIsShorter(units[1..]);
      if |units| >= 2 {
        ParsedIsShorter(units[2..]);
      }
    }
  }

  lemma {:induction false} WithinIsConstructed(v: Json, e: Envelope, depth: nat)
    requires depth <= e.maxDepth
    ensures Within(v, e, depth)
            <==> depth + Depth(v) <= e.maxDepth && Constructed(v, e) && NoMergedExcess(v, e)
    decreases v, 1
  {
    hide ParsedLength;
    match v
    case Token(_) =>
    case Text(units) => ParsedIsShorter(units);
    case Arr(items) => if depth < e.maxDepth { ItemsWithinConstructed(items, e, depth + 1); }
    case Obj(fields) => if depth < e.maxDepth { FieldsWithinConstructed(fields, e, depth + 1); }
  }

  lemma {:induction false} ItemsWithinConstructed(items: Items, e: Envelope, depth: nat)
    requires depth <= e.maxDepth
    ensures ItemsWithin(items, e, depth)
            <==> depth + ItemsDepth(items) <= e.maxDepth && ItemsConstructed(items, e) && ItemsFit(items, e)
    decreases items, 0
  {
    hide Within, Constructed, NoMergedExcess, Depth;
    match items
    case NoItems =>
    case Item(head, tail) =>
      WithinIsConstructed(head, e, depth);
      ItemsWithinConstructed(tail, e, depth);
  }

  lemma {:induction false} FieldsWithinConstructed(fields: Fields, e: Envelope, depth: nat)
    requires depth <= e.maxDepth
    ensures FieldsWithin(fields, e, depth)
            <==> depth + FieldsDepth(fields) <= e.maxDepth && FieldsConstructed(fields, e) && FieldsFit(fields, e)
    decreases fields, 0
  {
    hide Within, Constructed, NoMergedExcess, Depth, ParsedLength;
    match fields
    case NoFields =>
    case Field(key, value, rest) =>
      ParsedIsShorter(key);
      WithinIsConstructed(value, e, depth);
      FieldsWithinConstructed(rest, e, depth);
  }

  /**
   * The text scanner and the check on the built value agree, nesting aside, exactly when no string is over the limit
   * as spelled but within it as parsed.
   */
  lemma ScannerAgainstBuiltValue(e: Envelope, v: Json)
    requires Allowed(v) && e.maxItems >= 1 && Utf8Length(Print(v)) <= e.maxBytes
    ensures Preflight(e, Print(v)) <==> Depth(v) <= e.maxDepth && Constructed(v, e) && NoMergedExcess(v, e)
  {
    hide Within, Allowed, Print, Preflight, Constructed, NoMergedExcess, Depth;
    ScannerDecidesLimits(e, v);
    WithinIsConstructed(v, e, 0);
  }

  /** A text of n escaped surrogate pairs. */
  function PairsOf(n: nat): seq<CharUnit> {
    if n == 0 then [] else [Coded("d83d"), Coded("de00")] + PairsOf(n - 1)
  }

  lemma {:induction false} PairsMerge(n: nat)
    ensures |PairsOf(n)| == 2 * n && UnitsAllowed(PairsOf(n)) && ParsedLength(PairsOf(n)) == n
  {
    if n > 0 {
      PairsMerge(n - 1);
      assert CodeOf("d83d") == 0xd83d && CodeOf("de00") == 0xde00;
      assert PairsOf(n)[2..] == PairsOf(n - 1);
    }
  }

  /**
   * They do differ under every string limit, however many bytes are allowed: as many escaped surrogate pairs as the
   * limit allows characters are twice as many characters to the scanner, and exactly the limit to the parser.
   */
  lemma PairsAreCountedTwice(e: Envelope)
    requires e.maxItems >= 1 && e.maxString >= 1
    ensures var pairs := Text(PairsOf(e.maxString));
            Allowed(pairs) && Constructed(pairs, e) && !Preflight(e, Print(pairs))
  {
    PairsMerge(e.maxString);
    ScannerDecidesLimits(e, Text(PairsOf(e.maxString)));
  }

  // ---- strings of any characters at all ----

  /** The twelve controls that can reorder text: marks, embeddings, overrides and isolates. */
  const BIDI_CONTROLS: set<int> :=
    {0x061c, 0x200e, 0x200f, 0x202a, 0x202b, 0x202c, 0x202d, 0x202e, 0x2066, 0x2067, 0x2068, 0x2069}

  const LOWER_DIGITS := "0123456789abcdef"

  const UPPER_DIGITS := "0123456789ABCDEF"

  predicate IsDigit(c: char, v: int) {
    0 <= v < 16 && (c == LOWER_DIGITS[v] || c == UPPER_DIGITS[v])
  }

  /** Four hexadecimal digits, of either case, of this number. */
  ghost predicate Spells(digits: string, n: int) {
    && |digits| == 4
    && exists a, b, c, d ::
         && IsDigit(digits[0], a) && IsDigit(digits[1], b) && IsDigit(digits[2], c) && IsDigit(digits[3], d)
         && n == ((a * 16 + b) * 16 + c) * 16 + d
  }

  /** A character the scanner has nothing against. */
  predicate Harmless(code: int) {
    code >= 32 && code !in BIDI_CONTROLS
  }

  /** Any way of spelling one character: itself, a backslash and a letter other than u, or four characters after it. */
  predicate UnitSpelled(u: CharUnit) {
    match u
    case Raw(c) => c != '\"' && c != '\\'
    case Escaped(c) => c != 'u'
    case Coded(digits) => |digits| == 4
  }

  /** A spelling of a harmless character; of the short escapes only those of a quote, a backslash and a slash are. */
  ghost predicate UnitHarmless(u: CharUnit) {
    match u
    case Raw(c) => Harmless(c as int)
    case Escaped(c) => c == '\"' || c == '\\' || c == '/'
    case Coded(digits) => exists n :: Spells(digits, n) && Harmless(n)
  }

  lemma DigitValue(c: char, v: int)
    ensures IsDigit(c, v) <==> IsHex(c) && HexValue(c) == v
  {
    if 0 <= v < 16 {
      DigitsListed(v);
    }
    if IsHex(c) {
      DigitsListed(HexValue(c));
    }
  }

  lemma DigitsListed(v: int)
    requires 0 <= v < 16
    ensures LOWER_DIGITS[v] == if v < 10 then ('0' as int + v) as char else ('a' as int + v - 10) as char
    ensures UPPER_DIGITS[v] == if v < 10 then ('0' as int + v) as char else ('A' as int + v - 10) as char
  {
  }

  lemma SpellingIsCode(digits: string, n: int)
    ensures Spells(digits, n) <==> IsCode(digits) && CodeOf(digits) == n
  {
    hide IsDigit, IsHex, HexValue;
    if |digits| == 4 {
      forall k, v | 0 <= k < 4 ensures IsDigit(digits[k], v) <==> IsHex(digits[k]) && HexValue(digits[k]) == v {
        DigitValue(digits[k], v);
      }
      if IsCode(digits) {
        assert IsDigit(digits[0], HexValue(digits[0])) && IsDigit(digits[1], HexValue(digits[1]))
               && IsDigit(digits[2], HexValue(digits[2])) && IsDigit(digits[3], HexValue(digits[3]));
      }
    }
  }

  lemma BidiListed(code: int)
    ensures IsBidi(code) <==> code in BIDI_CONTROLS
  {
  }

  /** What a unit may be, in the scanner's tables and in the lists. */
  lemma AllowedIsHarmless(u: CharUnit)
    requires UnitSpelled(u)
    ensures UnitAllowed(u) <==> UnitHarmless(u)
  {
    match u
    case Raw(c) => BidiListed(c as int);
    case Escaped(c) =>
    case Coded(digits) =>
      if IsCode(digits) {
        SpellingIsCode(digits, CodeOf(digits));
        BidiListed(CodeOf(digits));
      }
      if n :| Spells(digits, n) && Harmless(n) {
        SpellingIsCode(digits, n);
      }
      hide Spells, Harmless, IsCode, IsBidi;
  }

  lemma UnitRefused(e: Envelope, u: CharUnit, rest: string, s: State)
    requires UnitSpelled(u) && !UnitAllowed(u) && s.inString && !s.escaped
    requires u.Raw? ==> !IsBidi(u.c as int)
    ensures !Verdict(e, PrintUnit(u) + rest, s)
  {
    hide AllowedCode, IsBidi;
    var text := PrintUnit(u) + rest;
    match u
    case Raw(c) =>
      assert text[0] == c;
    case Escaped(c) =>
      assert text[0] == '\\' && text[1..][0] == c;
      assert Verdict(e, text, s) == Verdict(e, text[1..], s.(escaped := true));
    case Coded(digits) =>
      assert text[0] == '\\' && text[1..][0] == 'u' && text[1..][1..5] == digits;
      assert Verdict(e, text, s) == Verdict(e, text[1..], s.(escaped := true));
  }

  ghost predicate RawBidi(units: seq<CharUnit>) {
    exists i :: 0 <= i < |units| && units[i].Raw? && IsBidi(units[i].c as int)
  }

  /** A disallowed unit anywhere stops the scan. */
  lemma {:induction false} UnitsRefused(e: Envelope, units: seq<CharUnit>, rest: string, s: State)
    requires forall i :: 0 <= i < |units| ==> UnitSpelled(units[i])
    requires !UnitsAllowed(units) && !RawBidi(units) && s.inString && !s.escaped
    ensures !Verdict(e, PrintUnits(units) + rest, s)
    decreases |units|
  {
    hide UnitAllowed, Verdict, PrintUnit, UnitSpelled, IsBidi;
    assert PrintUnits(units) + rest == PrintUnit(units[0]) + (PrintUnits(units[1..]) + rest);
    if UnitAllowed(units[0]) {
      UnitStep(e, units[0], PrintUnits(units[1..]) + rest, s);
      assert forall i :: 0 <= i < |units[1..]| ==> units[1..][i] == units[i + 1];
      UnitsRefused(e, units[1..], rest, s.(length := s.length + 1));
    } else {
      UnitRefused(e, units[0], PrintUnits(units[1..]) + rest, s);
    }
  }

  lemma {:induction false} RawBidiPrints(units: seq<CharUnit>)
    requires RawBidi(units)
    ensures HasBidi(PrintUnits(units))
  {
    var i :| 0 <= i < |units| && units[i].Raw? && IsBidi(units[i].c as int);
    var head, tail := PrintUnit(units[0]), PrintUnits(units[1..]);
    if i == 0 {
      assert (head + tail)[0] == units[0].c;
    } else {
      assert units[1..][i - 1] == units[i];
      RawBidiPrints(units[1..]);
      var k :| 0 <= k < |tail| && IsBidi(tail[k] as int);
      assert (head + tail)[|head| + k] == tail[k];
    }
  }

  /**
   * Strings of whatever characters, spelled in whatever way: the scan accepts one exactly when it is in bounds and
   * every character in it is harmless. Raw or behind an escape, no control and no reordering character gets through.
   */
  lemma TextsAreVettedExactly(e: Envelope, units: seq<CharUnit>)
    requires e.maxItems >= 1 && forall i :: 0 <= i < |units| ==> UnitSpelled(units[i])
    ensures Preflight(e, PrintText(units))
            <==> && Utf8Length(PrintText(units)) <= e.maxBytes && |units| <= e.maxString
                 && forall i :: 0 <= i < |units| ==> UnitHarmless(units[i])
  {
    hide UnitSpelled, UnitHarmless, UnitAllowed, Verdict, Utf8Length, IsBidi;
    forall i | 0 <= i < |units| ensures UnitAllowed(units[i]) <==> UnitHarmless(units[i]) {
      AllowedIsHarmless(units[i]);
    }
    if UnitsAllowed(units) {
      ScannerDecidesLimits(e, Text(units));
    } else if RawBidi(units) {
      RawBidiPrints(units);
      var k :| 0 <= k < |PrintUnits(units)| && IsBidi(PrintUnits(units)[k] as int);
      assert PrintText(units)[k + 1] == PrintUnits(units)[k];
    } else {
      UnitsRefused(e, units, ['\"'], START.(inString := true));
      StringOpens(e, PrintUnits(units) + ['\"']);
    }
  }

  lemma StringOpens(e: Envelope, rest: string)
    ensures Verdict(e, ['\"'] + rest, START) == Verdict(e, rest, START.(inString := true))
  {
    OneOutside(e, '\"', rest, START);
  }

  /** Two escapes are one character to the parser exactly when they spell a high and then a low surrogate. */
  lemma PairsMergeExactly(first: string, second: string)
    ensures ParsedLength([Coded(first), Coded(second)])
            == if exists high, low :: && Spells(first, high) && 0xd800 <= high < 0xdc00
                                      && Spells(second, low) && 0xdc00 <= low < 0xe000
               then 1 else 2
  {
    hide Spells, IsCode;
    forall n ensures Spells(first, n) <==> IsCode(first) && CodeOf(first) == n {
      SpellingIsCode(first, n);
    }
    forall n ensures Spells(second, n) <==> IsCode(second) && CodeOf(second) == n {
      SpellingIsCode(second, n);
    }
    var pair := [Coded(first), Coded(second)];
    assert pair[1..] == [Coded(second)] && pair[2..] == [] && [Coded(second)][1..] == [];
    assert ParsedLength([Coded(second)]) == 1;
    if IsCode(first) && IsCode(second) {
      assert Spells(first, CodeOf(first)) && Spells(second, CodeOf(second));
    }
  }
}
