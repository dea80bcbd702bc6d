/** JSON texts as RFC 8259 writes them (sections 2 to 7), with every choice of insignificant
    whitespace and string spelling, and the theorem that the scan measures their nesting. */
module JsonDepth {
  import opened Scanner
  import opened Relational

  // A character of a string: itself, a two-character escape, or \uXXXX (section 7).
  datatype StringItem = Plain(b: byte) | Escape(b: byte) | Unicode(h0: byte, h1: byte, h2: byte, h3: byte)

  // Insignificant whitespace either side of a structural character (section 2).
  datatype Pad = Pad(before: seq<byte>, after: seq<byte>)

  // An array, or an object whose items are named.
  datatype Value =
    | Scalar(text: seq<byte>)
    | Str(chars: seq<StringItem>)
    | Nested(named: bool, open: Pad, items: Items, close: Pad)

  datatype Items = Done | Item(comma: Pad, name: Option<Name>, value: Value, rest: Items)

  datatype Name = Name(chars: seq<StringItem>, colon: Pad)

  datatype Text = Text(before: seq<byte>, value: Value, after: seq<byte>)

  /* ---- which of these are JSON ---- */

  predicate Blank(ws: seq<byte>) {
    forall b :: b in ws ==> b == 0x20 || b == 0x09 || b == 0x0A || b == 0x0D
  }

  predicate BlankPad(p: Pad) { Blank(p.before) && Blank(p.after) }

  predicate Hex(b: byte) { 0x30 <= b <= 0x39 || 0x41 <= b <= 0x46 || 0x61 <= b <= 0x66 }

  predicate WellFormedItem(c: StringItem) {
    match c
    case Plain(b) => b >= 0x20 && b != QUOTE && b != BACKSLASH
    case Escape(b) =>
      b == QUOTE || b == BACKSLASH || b == 0x2F || b == 0x62 || b == 0x66 || b == 0x6E || b == 0x72 || b == 0x74
    case Unicode(h0, h1, h2, h3) => Hex(h0) && Hex(h1) && Hex(h2) && Hex(h3)
  }

  predicate WellFormedString(cs: seq<StringItem>) {
    forall c :: c in cs ==> WellFormedItem(c)
  }

  // true, false, null, and any spelling over the characters of a number.
  predicate WellFormedScalar(text: seq<byte>) {
    || text == [0x74, 0x72, 0x75, 0x65]
    || text == [0x66, 0x61, 0x6C, 0x73, 0x65]
    || text == [0x6E, 0x75, 0x6C, 0x6C]
    || (text != [] && forall b :: b in text ==>
         0x30 <= b <= 0x39 || b == 0x2B || b == 0x2D || b == 0x2E || b == 0x45 || b == 0x65)
  }

  predicate WellFormed(v: Value) {
    match v
    case Scalar(text) => WellFormedScalar(text)
    case Str(chars) => WellFormedString(chars)
    case Nested(named, open, items, close) => BlankPad(open) && BlankPad(close) && WellFormedItems(items, named)
  }

  predicate WellFormedItems(items: Items, named: bool) {
    match items
    case Done => true
    case Item(comma, name, value, rest) =>
      && BlankPad(comma)
      && name.Some? == named
      && (named ==> WellFormedString(name.value.chars) && BlankPad(name.value.colon))
      && WellFormed(value)
      && WellFormedItems(rest, named)
  }

  predicate WellFormedText(t: Text) {
    Blank(t.before) && Blank(t.after) && WellFormed(t.value)
  }

  /* ---- how they are written ---- */

  function PrintChars(cs: seq<StringItem>): seq<byte> {
    if cs == [] then [] else PrintChar(cs[0]) + PrintChars(cs[1..])
  }

  function PrintChar(c: StringItem): seq<byte> {
    match c
    case Plain(b) => [b]
    case Escape(b) => [BACKSLASH, b]
    case Unicode(h0, h1, h2, h3) => [BACKSLASH, 0x75, h0, h1, h2, h3]
  }

  function PrintString(cs: seq<StringItem>): seq<byte> {
    [QUOTE] + PrintChars(cs) + [QUOTE]
  }

  function Around(p: Pad, b: byte): seq<byte> {
    p.before + [b] + p.after
  }

  function Print(v: Value): seq<byte> {
    match v
    case Scalar(text) => text
    case Str(chars) => PrintString(chars)
    case Nested(named, open, items, close) =>
      Around(open, if named then 0x7B else 0x5B) + PrintItems(items, true) + Around(close, if named then 0x7D else 0x5D)
  }

  function PrintItems(items: Items, first: bool): seq<byte> {
    match items
    case Done => []
    case Item(comma, name, value, rest) =>
      Lead(comma, name, first) + Print(value) + PrintItems(rest, false)
  }

  // The separator and the member name before a value, where there is one.
  function Lead(comma: Pad, name: Option<Name>, first: bool): seq<byte> {
    (if first then [] else Around(comma, 0x2C))
    + (if name.None? then [] else PrintString(name.value.chars) + Around(name.value.colon, 0x3A))
  }

  function PrintText(t: Text): seq<byte> {
    t.before + Print(t.value) + t.after
  }

  /* ---- what they nest ---- */

  function Depth(v: Value): nat {
    if v.Nested? then 1 + DepthOfItems(v.items) else 0
  }

  function DepthOfItems(items: Items): nat {
    match items
    case Done => 0
    case Item(_, _, value, rest) => if Depth(value) > DepthOfItems(rest) then Depth(value) else DepthOfItems(rest)
  }

  /* ---- the scan as a fold, so that it composes over concatenation ---- */

  datatype Scan = At(place: Place, depth: int) | TooDeep

  function Feed(s: Scan, b: byte, m: int): Scan {
    if s.TooDeep? then TooDeep
    else if s.place == Outside && Opens(b) then
      if s.depth + 1 > m then TooDeep else At(Outside, s.depth + 1)
    else if s.place == Outside && Closes(b) then At(Outside, if s.depth > 1 then s.depth - 1 else 0)
    else At(Next(s.place, b), s.depth)
  }

  function FeedAll(s: Scan, bytes: seq<byte>, m: int): Scan
    decreases |bytes|
  {
    if bytes == [] then s else FeedAll(Feed(s, bytes[0], m), bytes[1..], m)
  }

  lemma {:induction false} FeedConcat(s: Scan, a: seq<byte>, b: seq<byte>, m: int)
    ensures FeedAll(s, a + b, m) == FeedAll(FeedAll(s, a, m), b, m)
    decreases |a|
  {
    if a == [] {
      assert a + b == b;
    } else {
      assert (a + b)[1..] == a[1..] + b;
      FeedConcat(Feed(s, a[0], m), a[1..], b, m);
    }
  }

  lemma {:induction false} TooDeepIsFinal(bytes: seq<byte>, m: int)
    ensures FeedAll(TooDeep, bytes, m) == TooDeep
    decreases |bytes|
  {
    if bytes != [] {
      TooDeepIsFinal(bytes[1..], m);
    }
  }

  // The fold reaches TooDeep exactly on the bodies that are not Shallow.
  lemma {:induction false} FeedAllIsShallow(body: seq<byte>, n: nat, m: int)
    requires n <= |body|
    ensures var s := FeedAll(At(Outside, 0), body[..n], m);
      && (s.TooDeep? <==> !ShallowUpTo(body, n, m))
      && (s.At? ==> s.place == PlaceAfter(body[..n]) && Deepest(body, n, s.depth))
    decreases n
  {
    if n == 0 {
      assert Net(body, 0, 0) == 0;
    } else {
      FeedAllIsShallow(body, n - 1, m);
      var before := FeedAll(At(Outside, 0), body[..n - 1], m);
      assert body[..n] == body[..n - 1] + [body[n - 1]];
      FeedConcat(At(Outside, 0), body[..n - 1], [body[n - 1]], m);
      OneByte(before, body[n - 1], m);
      assert body[..n][..n - 1] == body[..n - 1];
      if before.At? {
        OneMoreByte(body, n, before.depth);
      }
    }
  }

  lemma OneByte(s: Scan, b: byte, m: int)
    ensures FeedAll(s, [b], m) == Feed(s, b, m)
  {
    assert [b][1..] == [];
  }

  /* ---- pieces of a text ---- */

  lemma {:induction false} QuietBytes(bytes: seq<byte>, d: int, m: int)
    requires forall b :: b in bytes ==> b != QUOTE && !Opens(b) && !Closes(b)
    ensures FeedAll(At(Outside, d), bytes, m) == At(Outside, d)
    decreases |bytes|
  {
    if bytes != [] {
      assert forall b :: b in bytes[1..] ==> b in bytes;
      QuietBytes(bytes[1..], d, m);
    }
  }

  lemma {:induction false} TextBytes(bytes: seq<byte>, d: int, m: int)
    requires forall b :: b in bytes ==> b != QUOTE && b != BACKSLASH
    ensures FeedAll(At(InString, d), bytes, m) == At(InString, d)
    decreases |bytes|
  {
    if bytes != [] {
      assert forall b :: b in bytes[1..] ==> b in bytes;
      assert Feed(At(InString, d), bytes[0], m) == At(InString, d) by {
        assert bytes[0] in bytes;
      }
      TextBytes(bytes[1..], d, m);
    }
  }

  lemma {:induction false} InsideAString(cs: seq<StringItem>, d: int, m: int)
    requires WellFormedString(cs)
    ensures FeedAll(At(InString, d), PrintChars(cs), m) == At(InString, d)
    decreases |cs|
  {
    if cs != [] {
      FeedConcat(At(InString, d), PrintChar(cs[0]), PrintChars(cs[1..]), m);
      OneCharacter(cs[0], d, m);
      InsideAString(cs[1..], d, m);
    }
  }

  lemma OneCharacter(c: StringItem, d: int, m: int)
    requires WellFormedItem(c)
    ensures FeedAll(At(InString, d), PrintChar(c), m) == At(InString, d)
  {
    if c.Plain? {
      TextBytes([c.b], d, m);
    } else {
      var escaped, rest := PrintChar(c)[1], PrintChar(c)[2..];
      assert PrintChar(c) == [BACKSLASH] + ([escaped] + rest);
      FeedConcat(At(InString, d), [BACKSLASH], [escaped] + rest, m);
      OneByte(At(InString, d), BACKSLASH, m);
      FeedConcat(At(Escaped, d), [escaped], rest, m);
      OneByte(At(Escaped, d), escaped, m);
      TextBytes(rest, d, m);
    }
  }

  lemma WholeString(cs: seq<StringItem>, d: int, m: int)
    requires WellFormedString(cs)
    ensures FeedAll(At(Outside, d), PrintString(cs), m) == At(Outside, d)
  {
    FeedConcat(At(Outside, d), [QUOTE] + PrintChars(cs), [QUOTE], m);
    FeedConcat(At(Outside, d), [QUOTE], PrintChars(cs), m);
    OneByte(At(Outside, d), QUOTE, m);
    InsideAString(cs, d, m);
    OneByte(At(InString, d), QUOTE, m);
  }

  lemma PaddedByte(p: Pad, b: byte, d: int, m: int)
    requires BlankPad(p) && b != QUOTE
    ensures FeedAll(At(Outside, d), Around(p, b), m) == Feed(At(Outside, d), b, m)
  {
    FeedConcat(At(Outside, d), p.before + [b], p.after, m);
    FeedConcat(At(Outside, d), p.before, [b], m);
    QuietBytes(p.before, d, m);
    OneByte(At(Outside, d), b, m);
    var s := Feed(At(Outside, d), b, m);
    if s.TooDeep? {
      TooDeepIsFinal(p.after, m);
    } else {
      QuietBytes(p.after, s.depth, m);
    }
  }

  // Where the scan is after a part that nests `deep` levels, begun at level d.
  function Expected(d: int, deep: nat, m: int): Scan {
    if deep == 0 || d + deep <= m then At(Outside, d) else TooDeep
  }

  // An opener, a part nesting `deep` levels, and a closer.
  lemma ScanOfBrackets(open: Pad, left: byte, inside: seq<byte>, close: Pad, right: byte, d: nat, deep: nat, m: int)
    requires BlankPad(open) && BlankPad(close) && (left, right) in {(0x7B, 0x7D), (0x5B, 0x5D)}
    requires d + 1 <= m ==> FeedAll(At(Outside, d + 1), inside, m) == Expected(d + 1, deep, m)
    ensures FeedAll(At(Outside, d), Around(open, left) + inside + Around(close, right), m) == Expected(d, deep + 1, m)
  {
    FeedConcat(At(Outside, d), Around(open, left) + inside, Around(close, right), m);
    FeedConcat(At(Outside, d), Around(open, left), inside, m);
    PaddedByte(open, left, d, m);
    TooDeepIsFinal(inside, m);
    TooDeepIsFinal(Around(close, right), m);
    PaddedByte(close, right, d + 1, m);
  }

  lemma {:induction false} ScanOfValue(v: Value, d: nat, m: int)
    requires WellFormed(v)
    ensures FeedAll(At(Outside, d), Print(v), m) == Expected(d, Depth(v), m)
    decreases v
  {
    match v
    case Scalar(text) => QuietBytes(text, d, m);
    case Str(chars) => WholeString(chars, d, m);
    case Nested(named, open, items, close) =>
      var left, right: byte := if named then 0x7B else 0x5B, if named then 0x7D else 0x5D;
      if d + 1 <= m {
        ScanOfItems(items, named, true, d + 1, m);
      }
      ScanOfBrackets(open, left, PrintItems(items, true), close, right, d, DepthOfItems(items), m);
  }

  lemma {:induction false} ScanOfItems(items: Items, named: bool, first: bool, d: nat, m: int)
    requires WellFormedItems(items, named)
    ensures FeedAll(At(Outside, d), PrintItems(items, first), m) == Expected(d, DepthOfItems(items), m)
    decreases items
  {
    match items
    case Done =>
    case Item(comma, name, value, rest) =>
      FeedConcat(At(Outside, d), Lead(comma, name, first) + Print(value), PrintItems(rest, false), m);
      FeedConcat(At(Outside, d), Lead(comma, name, first), Print(value), m);
      LeadIsQuiet(comma, name, first, d, m);
      ScanOfValue(value, d, m);
      if Expected(d, Depth(value), m).TooDeep? {
        TooDeepIsFinal(PrintItems(rest, false), m);
      } else {
        ScanOfItems(rest, named, false, d, m);
      }
  }

  lemma LeadIsQuiet(comma: Pad, name: Option<Name>, first: bool, d: nat, m: int)
    requires BlankPad(comma) && (name.Some? ==> WellFormedString(name.value.chars) && BlankPad(name.value.colon))
    ensures FeedAll(At(Outside, d), Lead(comma, name, first), m) == At(Outside, d)
  {
    var a := if first then [] else Around(comma, 0x2C);
    var b := if name.None? then [] else PrintString(name.value.chars) + Around(name.value.colon, 0x3A);
    FeedConcat(At(Outside, d), a, b, m);
    PaddedByte(comma, 0x2C, d, m);
    if name.Some? {
      FeedConcat(At(Outside, d), PrintString(name.value.chars), Around(name.value.colon, 0x3A), m);
      WholeString(name.value.chars, d, m);
      PaddedByte(name.value.colon, 0x3A, d, m);
    }
  }

  // On every JSON text, however spelled, the scan accepts exactly the values nesting no
  // deeper than the bound. Under a negative bound only the values with no brackets pass.
  lemma ScanMeasuresNesting(t: Text, m: int)
    requires WellFormedText(t)
    ensures Shallow(PrintText(t), m) <==> Depth(t.value) == 0 || Depth(t.value) <= m
  {
    var body := PrintText(t);
    FeedAllIsShallow(body, |body|, m);
    assert body[..|body|] == body;
    FeedConcat(At(Outside, 0), t.before + Print(t.value), t.after, m);
    FeedConcat(At(Outside, 0), t.before, Print(t.value), m);
    QuietBytes(t.before, 0, m);
    ScanOfValue(t.value, 0, m);
    QuietBytes(t.after, 0, m);
    TooDeepIsFinal(t.after, m);
    assert FeedAll(At(Outside, 0), body, m) == Expected(0, Depth(t.value), m);
  }
}
