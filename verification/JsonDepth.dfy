/**
  The nesting-depth scan over raw JSON bytes, against the JSON grammar of
  RFC 8259 (sections 2 to 7) with every choice of whitespace and escapes.
*/
module JsonDepth {
  import opened Bytes

  const QUOTE: Byte := 0x22
  const BACKSLASH: Byte := 0x5C
  const OPEN_BRACE: Byte := 0x7B
  const CLOSE_BRACE: Byte := 0x7D
  const OPEN_BRACKET: Byte := 0x5B
  const CLOSE_BRACKET: Byte := 0x5D
  const COMMA: Byte := 0x2C
  const COLON: Byte := 0x3A

  // ------------------------------------------------------------ the scan

  datatype Scan = Scan(depth: nat, maximum: nat, inString: bool, escaped: bool)

  function Max(a: nat, b: nat): nat {
    if a < b then b else a
  }

  function Read(scan: Scan, value: Byte): Scan {
    if scan.inString then
      if scan.escaped then scan.(escaped := false)
      else if value == BACKSLASH then scan.(escaped := true)
      else if value == QUOTE then scan.(inString := false)
      else scan
    else if value == QUOTE then scan.(inString := true)
    else if value == OPEN_BRACE || value == OPEN_BRACKET
      then scan.(depth := scan.depth + 1, maximum := Max(scan.maximum, scan.depth + 1))
    else if value == CLOSE_BRACE || value == CLOSE_BRACKET
      then scan.(depth := if scan.depth == 0 then 0 else scan.depth - 1)
    else scan
  }

  function ReadAll(scan: Scan, body: seq<Byte>): Scan
    decreases |body|
  {
    if body == [] then scan else ReadAll(Read(scan, body[0]), body[1..])
  }

  lemma {:induction false} ReadsInTurn(scan: Scan, a: seq<Byte>, b: seq<Byte>)
    ensures ReadAll(scan, a + b) == ReadAll(ReadAll(scan, a), b)
    decreases |a|
  {
    hide Read;
    if a == [] {
      assert a + b == b;
    } else {
      assert (a + b)[1..] == a[1..] + b;
      ReadsInTurn(Read(scan, a[0]), a[1..], b);
    }
  }

  const FRESH := Scan(0, 0, false, false)

  method MeasureDepth(body: seq<Byte>) returns (maximum: nat)
    ensures maximum == ReadAll(FRESH, body).maximum
  {
    var depth: nat := 0;
    maximum := 0;
    var inString, escaped := false, false;
    var index := 0;
    assert body[0..] == body;
    while index < |body|
      invariant 0 <= index <= |body|
      invariant ReadAll(Scan(depth, maximum, inString, escaped), body[index..]) == ReadAll(FRESH, body)
    {
      var value := body[index];
      ghost var before := Scan(depth, maximum, inString, escaped);
      assert body[index..][1..] == body[index + 1..];
      assert ReadAll(before, body[index..]) == ReadAll(Read(before, value), body[index + 1..]);
      if inString {
        if escaped {
          escaped := false;
        } else if value == BACKSLASH {
          escaped := true;
        } else if value == QUOTE {
          inString := false;
        }
      } else if value == QUOTE {
        inString := true;
      } else if value == OPEN_BRACE || value == OPEN_BRACKET {
        depth := depth + 1;
        maximum := if maximum < depth then depth else maximum;
      } else if value == CLOSE_BRACE || value == CLOSE_BRACKET {
        depth := if depth == 0 then 0 else depth - 1;
      }
      index := index + 1;
    }
  }

  // ------------------------------------------------------------ JSON texts

  /** One character of a string: itself, a two-byte escape, or `\u` and four hex digits. */
  datatype StringPart = Raw(byte: Byte) | Escape(code: Byte) | Unicode(digits: seq<Byte>)

  /**
    A JSON text with every insignificant choice written out: the whitespace
    around each structural byte and the spelling of each string.  A `Literal` is
    a number, `true`, `false` or `null`.
  */
  datatype Json =
    | Literal(text: seq<Byte>)
    | Text(parts: seq<StringPart>)
    | Array(pad: seq<Byte>, items: Items)
    | Object(pad: seq<Byte>, members: Members)

  datatype Items = NoItems | Item(before: seq<Byte>, value: Json, after: seq<Byte>, rest: Items)

  datatype Members =
    | NoMembers
    | Member(before: seq<Byte>, key: seq<StringPart>, afterKey: seq<Byte>,
             beforeValue: seq<Byte>, value: Json, after: seq<Byte>, rest: Members)

  predicate IsBlank(text: seq<Byte>) {
    forall b :: b in text ==> b == 0x20 || b == 0x09 || b == 0x0A || b == 0x0D
  }

  predicate IsHex(b: Byte) {
    0x30 <= b <= 0x39 || 0x41 <= b <= 0x46 || 0x61 <= b <= 0x66
  }

  predicate PartOk(p: StringPart) {
    match p
    case Raw(b) => b >= 0x20 && b != QUOTE && b != BACKSLASH
    case Escape(c) => c in {QUOTE, BACKSLASH, 0x2F, 0x62, 0x66, 0x6E, 0x72, 0x74}
    case Unicode(d) => |d| == 4 && forall b :: b in d ==> IsHex(b)
  }

  /** The bytes of numbers and of the three names. */
  predicate LiteralOk(text: seq<Byte>) {
    text != [] && forall b :: b in text ==> 0x30 <= b <= 0x39 || 0x61 <= b <= 0x7A || b in {0x2B, 0x2D, 0x2E, 0x45}
  }

  predicate PartsOk(parts: seq<StringPart>) {
    forall p :: p in parts ==> PartOk(p)
  }

  predicate Valid(v: Json) {
    match v
    case Literal(text) => LiteralOk(text)
    case Text(parts) => PartsOk(parts)
    case Array(pad, items) => IsBlank(pad) && ItemsValid(items)
    case Object(pad, members) => IsBlank(pad) && MembersValid(members)
  }

  predicate ItemsValid(items: Items) {
    match items
    case NoItems => true
    case Item(before, value, after, rest) => IsBlank(before) && Valid(value) && IsBlank(after) && ItemsValid(rest)
  }

  predicate MembersValid(members: Members) {
    match members
    case NoMembers => true
    case Member(before, key, afterKey, beforeValue, value, after, rest) =>
      && IsBlank(before) && PartsOk(key) && IsBlank(afterKey) && IsBlank(beforeValue)
      && Valid(value) && IsBlank(after) && MembersValid(rest)
  }

  function RenderPart(p: StringPart): seq<Byte> {
    match p
    case Raw(b) => [b]
    case Escape(c) => [BACKSLASH, c]
    case Unicode(d) => [BACKSLASH, 0x75] + d
  }

  function RenderParts(parts: seq<StringPart>): seq<Byte> {
    if parts == [] then [] else RenderPart(parts[0]) + RenderParts(parts[1..])
  }

  function RenderString(parts: seq<StringPart>): seq<Byte> {
    [QUOTE] + RenderParts(parts) + [QUOTE]
  }

  function Render(v: Json): seq<Byte> {
    match v
    case Literal(text) => text
    case Text(parts) => RenderString(parts)
    case Array(pad, items) => [OPEN_BRACKET] + (pad + RenderItems(items)) + [CLOSE_BRACKET]
    case Object(pad, members) => [OPEN_BRACE] + (pad + RenderMembers(members)) + [CLOSE_BRACE]
  }

  function RenderItems(items: Items): seq<Byte> {
    match items
    case NoItems => []
    case Item(before, value, after, rest) =>
      before + (Render(value) + (after + (if rest.NoItems? then [] else [COMMA] + RenderItems(rest))))
  }

  function RenderMembers(members: Members): seq<Byte> {
    match members
    case NoMembers => []
    case Member(before, key, afterKey, beforeValue, value, after, rest) =>
      before + (RenderString(key) + (afterKey + ([COLON] + (beforeValue + (Render(value)
      + (after + (if rest.NoMembers? then [] else [COMMA] + RenderMembers(rest))))))))
  }

  /** The nesting depth of the value tree. */
  function Depth(v: Json): nat {
    match v
    case Literal(_) => 0
    case Text(_) => 0
    case Array(_, items) => 1 + ItemsDepth(items)
    case Object(_, members) => 1 + MembersDepth(members)
  }

  function ItemsDepth(items: Items): nat {
    match items
    case NoItems => 0
    case Item(_, value, _, rest) => Max(Depth(value), ItemsDepth(rest))
  }

  function MembersDepth(members: Members): nat {
    match members
    case NoMembers => 0
    case Member(_, _, _, _, value, _, rest) => Max(Depth(value), MembersDepth(rest))
  }

  // ------------------------------------------------------------ the scan measures the depth

  /** Outside strings, only quotes and brackets move the scan. */
  predicate Inert(b: Byte) {
    b !in {QUOTE, OPEN_BRACE, CLOSE_BRACE, OPEN_BRACKET, CLOSE_BRACKET}
  }

  lemma {:induction false} ReadsInert(scan: Scan, text: seq<Byte>)
    requires !scan.inString && forall b :: b in text ==> Inert(b)
    ensures ReadAll(scan, text) == scan
  {
    if text != [] {
      assert text[0] in text;
      ReadsInert(scan, text[1..]);
    }
  }

  lemma ReadsBlank(scan: Scan, text: seq<Byte>)
    requires !scan.inString && IsBlank(text)
    ensures ReadAll(scan, text) == scan
  {
    ReadsInert(scan, text);
  }

  lemma ReadsOne(scan: Scan, b: Byte)
    ensures ReadAll(scan, [b]) == Read(scan, b)
  {
    assert [b][1..] == [];
  }

  /** Inside a string every well-formed part is passed over. */
  lemma ReadsPart(scan: Scan, p: StringPart)
    requires scan.inString && !scan.escaped && PartOk(p)
    ensures ReadAll(scan, RenderPart(p)) == scan
  {
    match p
    case Raw(b) => ReadsOne(scan, b);
    case Escape(c) =>
      ReadsInTurn(scan, [BACKSLASH], [c]);
      ReadsOne(scan, BACKSLASH);
      ReadsOne(Read(scan, BACKSLASH), c);
      assert [BACKSLASH, c] == [BACKSLASH] + [c];
    case Unicode(d) =>
      ReadsInTurn(scan, [BACKSLASH], [0x75] + d);
      ReadsInTurn(Read(scan, BACKSLASH), [0x75], d);
      ReadsOne(scan, BACKSLASH);
      ReadsOne(Read(scan, BACKSLASH), 0x75);
      ReadsHex(scan, d);
      assert [BACKSLASH, 0x75] + d == [BACKSLASH] + ([0x75] + d);
  }

  lemma {:induction false} ReadsHex(scan: Scan, d: seq<Byte>)
    requires scan.inString && !scan.escaped && forall b :: b in d ==> IsHex(b)
    ensures ReadAll(scan, d) == scan
  {
    if d != [] {
      assert d[0] in d;
      ReadsHex(scan, d[1..]);
    }
  }

  lemma {:induction false} ReadsParts(scan: Scan, parts: seq<StringPart>)
    requires scan.inString && !scan.escaped && PartsOk(parts)
    ensures ReadAll(scan, RenderParts(parts)) == scan
  {
    if parts != [] {
      assert parts[0] in parts;
      ReadsInTurn(scan, RenderPart(parts[0]), RenderParts(parts[1..]));
      ReadsPart(scan, parts[0]);
      ReadsParts(scan, parts[1..]);
    }
  }

  lemma ReadsString(scan: Scan, parts: seq<StringPart>)
    requires !scan.inString && !scan.escaped && PartsOk(parts)
    ensures ReadAll(scan, RenderString(parts)) == scan
  {
    var inside := Read(scan, QUOTE);
    ReadsInTurn(scan, [QUOTE] + RenderParts(parts), [QUOTE]);
    ReadsInTurn(scan, [QUOTE], RenderParts(parts));
    ReadsOne(scan, QUOTE);
    ReadsParts(inside, parts);
    ReadsOne(inside, QUOTE);
  }

  /** The scan after a value that nests `depth` levels: the same place, with the maximum raised. */
  function Raised(scan: Scan, depth: nat): Scan {
    scan.(maximum := Max(scan.maximum, scan.depth + depth))
  }

  ghost predicate Outside(scan: Scan) {
    !scan.inString && !scan.escaped && scan.depth <= scan.maximum
  }

  lemma ReadsBlankThen(scan: Scan, blank: seq<Byte>, tail: seq<Byte>)
    requires Outside(scan) && IsBlank(blank)
    ensures ReadAll(scan, blank + tail) == ReadAll(scan, tail)
  {
    ReadsInTurn(scan, blank, tail);
    ReadsBlank(scan, blank);
  }

  lemma ReadsInertThen(scan: Scan, b: Byte, tail: seq<Byte>)
    requires Outside(scan) && Inert(b)
    ensures ReadAll(scan, [b] + tail) == ReadAll(scan, tail)
  {
    ReadsInTurn(scan, [b], tail);
    ReadsInert(scan, [b]);
  }

  /** An opening bracket, contents that nest `depth` levels, and the closing bracket. */
  lemma ReadsBracketed(scan: Scan, open: Byte, inner: seq<Byte>, close: Byte, depth: nat)
    requires Outside(scan) && open in {OPEN_BRACE, OPEN_BRACKET} && close in {CLOSE_BRACE, CLOSE_BRACKET}
    requires ReadAll(Read(scan, open), inner) == Raised(Read(scan, open), depth)
    ensures ReadAll(scan, [open] + inner + [close]) == Raised(scan, 1 + depth)
  {
    ReadsInTurn(scan, [open] + inner, [close]);
    ReadsInTurn(scan, [open], inner);
    ReadsOne(scan, open);
    ReadsOne(Raised(Read(scan, open), depth), close);
  }

  lemma {:induction false} ReadsValue(scan: Scan, v: Json)
    requires Outside(scan) && Valid(v)
    ensures ReadAll(scan, Render(v)) == Raised(scan, Depth(v))
    decreases v
  {
    match v
    case Literal(text) => ReadsInert(scan, text);
    case Text(parts) => ReadsString(scan, parts);
    case Array(pad, items) =>
      var inside := Read(scan, OPEN_BRACKET);
      ReadsBlankThen(inside, pad, RenderItems(items));
      ReadsItems(inside, items);
      ReadsBracketed(scan, OPEN_BRACKET, pad + RenderItems(items), CLOSE_BRACKET, ItemsDepth(items));
    case Object(pad, members) =>
      var inside := Read(scan, OPEN_BRACE);
      ReadsBlankThen(inside, pad, RenderMembers(members));
      ReadsMembers(inside, members);
      ReadsBracketed(scan, OPEN_BRACE, pad + RenderMembers(members), CLOSE_BRACE, MembersDepth(members));
  }

  lemma {:induction false} ReadsItems(scan: Scan, items: Items)
    requires Outside(scan) && ItemsValid(items)
    ensures ReadAll(scan, RenderItems(items)) == Raised(scan, ItemsDepth(items))
    decreases items
  {
    match items
    case NoItems =>
    case Item(before, value, after, rest) =>
      var tail := if rest.NoItems? then [] else [COMMA] + RenderItems(rest);
      ReadsBlankThen(scan, before, Render(value) + (after + tail));
      ReadsInTurn(scan, Render(value), after + tail);
      ReadsValue(scan, value);
      var raised := Raised(scan, Depth(value));
      ReadsBlankThen(raised, after, tail);
      if !rest.NoItems? { ReadsInertThen(raised, COMMA, RenderItems(rest)); }
      ReadsItems(raised, rest);
  }

  lemma {:induction false} ReadsMembers(scan: Scan, members: Members)
    requires Outside(scan) && MembersValid(members)
    ensures ReadAll(scan, RenderMembers(members)) == Raised(scan, MembersDepth(members))
    decreases members
  {
    match members
    case NoMembers =>
    case Member(before, key, afterKey, beforeValue, value, after, rest) =>
      var tail := if rest.NoMembers? then [] else [COMMA] + RenderMembers(rest);
      var body := Render(value) + (after + tail);
      ReadsKey(scan, before, key, afterKey, beforeValue, body);
      ReadsInTurn(scan, Render(value), after + tail);
      ReadsValue(scan, value);
      var raised := Raised(scan, Depth(value));
      ReadsBlankThen(raised, after, tail);
      if !rest.NoMembers? { ReadsInertThen(raised, COMMA, RenderMembers(rest)); }
      ReadsMembers(raised, rest);
  }

  lemma ReadsKey(
    scan: Scan, before: seq<Byte>, key: seq<StringPart>, afterKey: seq<Byte>, beforeValue: seq<Byte>, body: seq<Byte>)
    requires Outside(scan) && IsBlank(before) && PartsOk(key) && IsBlank(afterKey) && IsBlank(beforeValue)
    ensures ReadAll(scan, before + (RenderString(key) + (afterKey + ([COLON] + (beforeValue + body)))))
      == ReadAll(scan, body)
  {
    ReadsBlankThen(scan, before, RenderString(key) + (afterKey + ([COLON] + (beforeValue + body))));
    ReadsInTurn(scan, RenderString(key), afterKey + ([COLON] + (beforeValue + body)));
    ReadsString(scan, key);
    ReadsBlankThen(scan, afterKey, [COLON] + (beforeValue + body));
    ReadsInertThen(scan, COLON, beforeValue + body);
    ReadsBlankThen(scan, beforeValue, body);
  }

  /** On any serialisation of a JSON value the scan measures the nesting depth of the value. */
  lemma MeasuresNesting(before: seq<Byte>, v: Json, after: seq<Byte>)
    requires Valid(v) && IsBlank(before) && IsBlank(after)
    ensures ReadAll(FRESH, before + (Render(v) + after)).maximum == Depth(v)
  {
    ReadsBlankThen(FRESH, before, Render(v) + after);
    ReadsInTurn(FRESH, Render(v), after);
    ReadsValue(FRESH, v);
    ReadsBlank(Raised(FRESH, Depth(v)), after);
  }
}
