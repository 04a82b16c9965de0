/**
  The multipart scanner of the request boundary, against the multipart grammar
  of section 5.1.1 of RFC 2046.
*/
module Multipart {
  import opened Basics
  import opened Bytes

  const CRLF: seq<Byte> := [0x0D, 0x0A]
  const BLANK_LINE: seq<Byte> := CRLF + CRLF
  const DASHES: seq<Byte> := [0x2D, 0x2D]
  const MAX_HEADER_BYTES := 64 * 1024

  datatype Limits = Limits(maxFiles: int, maxFields: int, maxUploadBytes: int)

  datatype Verdict =
    | Accepted
    | MalformedBoundary
    | HeadersTooLong
    | NoName
    | TooManyParts(files: nat, fields: nat)
    | Incomplete
    | EmptyFile
    | FileTooLarge(observed: nat)

  /** What the header parser makes of one header block: no part name, or whether it is a file. */
  type Parser = seq<Byte> -> Option<bool>

  // ------------------------------------------------------------ the scanner

  /** The verdict on what is left of the body. */
  function Scan(rest: seq<Byte>, delimiter: seq<Byte>, limits: Limits, parse: Parser, files: nat, fields: nat): Verdict
    requires delimiter != []
    decreases |rest|
  {
    var marker := First(rest, delimiter);
    if marker.None? then Incomplete
    else
      var after := rest[marker.value + |delimiter|..];
      if At(after, 0, DASHES) then Accepted
      else if !At(after, 0, CRLF) then MalformedBoundary
      else ReadPart(after[2..], delimiter, limits, parse, files, fields)
  }

  /** The verdict from the header block of a part on. */
  function ReadPart(
    part: seq<Byte>, delimiter: seq<Byte>, limits: Limits, parse: Parser, files: nat, fields: nat): Verdict
    requires delimiter != []
    decreases |part|
  {
    var headerEnd := First(part, BLANK_LINE);
    if headerEnd.None? || headerEnd.value > MAX_HEADER_BYTES then HeadersTooLong
    else
      var isFile := parse(part[..headerEnd.value]);
      if isFile.None? then NoName
      else
        var files' := if isFile.value then files + 1 else files;
        var fields' := if isFile.value then fields else fields + 1;
        if files' > limits.maxFiles || fields' > limits.maxFields then TooManyParts(files', fields')
        else
          var content := part[headerEnd.value + 4..];
          var next := First(content, CRLF + delimiter);
          if next.None? then Incomplete
          else if isFile.value && next.value == 0 then EmptyFile
          else if isFile.value && next.value > limits.maxUploadBytes then FileTooLarge(next.value)
          else Scan(content, delimiter, limits, parse, files', fields')
  }

  /** The header block at `start` and the end of its part: a verdict, or where to go on. */
  method InspectPart(
    body: seq<Byte>, start: nat, delimiter: seq<Byte>, limits: Limits, parse: Parser, files: nat, fields: nat)
    returns (verdict: Option<Verdict>, cursor: nat, files': nat, fields': nat)
    requires start <= |body| && delimiter != []
    ensures verdict.Some? ==> ReadPart(body[start..], delimiter, limits, parse, files, fields) == verdict.value
    ensures verdict.None? ==> start < cursor <= |body|
    ensures verdict.None? ==>
      ReadPart(body[start..], delimiter, limits, parse, files, fields)
        == Scan(body[cursor..], delimiter, limits, parse, files', fields')
  {
    hide First, Scan;
    cursor, files', fields' := start, files, fields;
    var headerEnd := First(body[start..], BLANK_LINE);
    if headerEnd.None? || headerEnd.value > MAX_HEADER_BYTES { return Some(HeadersTooLong), cursor, files', fields'; }
    var isFile := parse(body[start..][..headerEnd.value]);
    if isFile.None? { return Some(NoName), cursor, files', fields'; }
    if isFile.value { files' := files + 1; } else { fields' := fields + 1; }
    if files' > limits.maxFiles || fields' > limits.maxFields {
      return Some(TooManyParts(files', fields')), cursor, files', fields';
    }
    cursor := start + headerEnd.value + 4;
    assert body[start..][headerEnd.value + 4..] == body[cursor..];
    var next := First(body[cursor..], CRLF + delimiter);
    if next.None? { return Some(Incomplete), cursor, files', fields'; }
    if isFile.value {
      if next.value == 0 { return Some(EmptyFile), cursor, files', fields'; }
      if next.value > limits.maxUploadBytes { return Some(FileTooLarge(next.value)), cursor, files', fields'; }
    }
    verdict := None;
  }

  method ValidateBody(body: seq<Byte>, boundary: seq<Byte>, limits: Limits, parse: Parser) returns (verdict: Verdict)
    ensures verdict == Scan(body, DASHES + boundary, limits, parse, 0, 0)
  {
    hide First, ReadPart;
    var delimiter := DASHES + boundary;
    var files: nat, fields: nat, cursor: nat := 0, 0, 0;
    assert body[0..] == body;
    while true
      invariant cursor <= |body|
      invariant Scan(body[cursor..], delimiter, limits, parse, files, fields)
        == Scan(body, delimiter, limits, parse, 0, 0)
      decreases |body| - cursor
    {
      ghost var rest := body[cursor..];
      var marker := First(body[cursor..], delimiter);
      if marker.None? { return Incomplete; }
      cursor := cursor + marker.value + |delimiter|;
      assert rest[marker.value + |delimiter|..] == body[cursor..];
      if At(body[cursor..], 0, DASHES) { return Accepted; }
      if !At(body[cursor..], 0, CRLF) { return MalformedBoundary; }
      assert body[cursor..][2..] == body[cursor + 2..];
      var refused;
      refused, cursor, files, fields := InspectPart(body, cursor + 2, delimiter, limits, parse, files, fields);
      if refused.Some? { return refused.value; }
    }
  }

  // ------------------------------------------------------------ well-formed bodies

  datatype Part = Part(header: seq<Byte>, content: seq<Byte>)

  /** A boundary holds no line break and is not empty. */
  ghost predicate BoundaryOk(boundary: seq<Byte>) {
    boundary != [] && 0x0D !in boundary && 0x0A !in boundary
  }

  /** The header block ends at its first blank line. */
  ghost predicate HeaderOk(header: seq<Byte>) {
    First(header + BLANK_LINE, BLANK_LINE) == Some(|header|)
  }

  /** The parts, each behind its own delimiter line, in front of `rest`. */
  function Lines(parts: seq<Part>, delimiter: seq<Byte>, rest: seq<Byte>): seq<Byte> {
    if parts == [] then rest
    else
      var following := parts[0].content + CRLF + Lines(parts[1..], delimiter, rest);
      delimiter + (CRLF + (parts[0].header + BLANK_LINE + following))
  }

  function Render(parts: seq<Part>, delimiter: seq<Byte>, epilogue: seq<Byte>): seq<Byte> {
    Lines(parts, delimiter, delimiter + (DASHES + epilogue))
  }

  function FilesAfter(part: Part, parse: Parser, files: nat): nat {
    if parse(part.header) == Some(true) then files + 1 else files
  }

  function FieldsAfter(part: Part, parse: Parser, fields: nat): nat {
    if parse(part.header) == Some(false) then fields + 1 else fields
  }

  /** The verdict on one part, given that on what follows it. */
  function JudgePart(part: Part, limits: Limits, parse: Parser, files: nat, fields: nat, following: Verdict): Verdict {
    var isFile := parse(part.header);
    var files', fields' := FilesAfter(part, parse, files), FieldsAfter(part, parse, fields);
    if |part.header| > MAX_HEADER_BYTES then HeadersTooLong
    else if isFile.None? then NoName
    else if files' > limits.maxFiles || fields' > limits.maxFields then TooManyParts(files', fields')
    else if isFile.value && part.content == [] then EmptyFile
    else if isFile.value && |part.content| > limits.maxUploadBytes then FileTooLarge(|part.content|)
    else following
  }

  /** The verdict on the parts themselves, in order. */
  function Judge(parts: seq<Part>, limits: Limits, parse: Parser, files: nat, fields: nat): Verdict {
    if parts == [] then Accepted
    else
      var following := Judge(parts[1..], limits, parse, FilesAfter(parts[0], parse, files),
        FieldsAfter(parts[0], parse, fields));
      JudgePart(parts[0], limits, parse, files, fields, following)
  }

  /** The number of parts of one kind. */
  function Count(parts: seq<Part>, parse: Parser, file: bool): nat {
    if parts == [] then 0 else (if parse(parts[0].header) == Some(file) then 1 else 0) + Count(parts[1..], parse, file)
  }

  // ------------------------------------------------------------ finding the delimiters

  lemma AtInFront(a: seq<Byte>, b: seq<Byte>, i: nat, pattern: seq<Byte>)
    requires i + |pattern| <= |a|
    ensures At(a + b, i, pattern) <==> At(a, i, pattern)
  {
    assert (a + b)[i..i + |pattern|] == a[i..i + |pattern|];
  }

  lemma AtJoint(a: seq<Byte>, b: seq<Byte>, pattern: seq<Byte>)
    requires At(b, 0, pattern)
    ensures At(a + b, |a|, pattern)
  {
    assert (a + b)[|a|..|a| + |pattern|] == b[..|pattern|];
  }

  lemma AtHits(text: seq<Byte>, i: nat, pattern: seq<Byte>, k: nat)
    requires At(text, i, pattern) && i <= k < i + |pattern|
    ensures text[k] in pattern
  {
    assert text[k] == pattern[k - i];
  }

  lemma StartsWith(text: seq<Byte>, pattern: seq<Byte>)
    requires text != [] && pattern != []
    ensures At(text, 0, pattern) ==> text[0] == pattern[0]
  {
    assert At(text, 0, pattern) ==> text[0] == text[0..|pattern|][0];
  }

  /** An occurrence cannot run across a byte the pattern does not hold. */
  lemma FirstAfterGap(gap: seq<Byte>, pattern: seq<Byte>, tail: seq<Byte>)
    requires pattern != [] && Lacks(gap, pattern) && (gap != [] ==> gap[|gap| - 1] !in pattern)
    ensures First(gap + (pattern + tail), pattern) == Some(|gap|)
  {
    hide First;
    var text := gap + (pattern + tail);
    assert At(pattern + tail, 0, pattern);
    AtJoint(gap, pattern + tail, pattern);
    forall i: nat | i < |gap| ensures !At(text, i, pattern) {
      if i + |pattern| <= |gap| {
        AtInFront(gap, pattern + tail, i, pattern);
      } else if At(text, i, pattern) {
        AtHits(text, i, pattern, |gap| - 1);
        assert false;
      }
    }
    FirstIs(text, pattern, |gap|);
  }

  /** Text followed by a line break lacks the delimiter exactly when the text does. */
  lemma LineLacks(content: seq<Byte>, delimiter: seq<Byte>)
    requires delimiter != [] && 0x0D !in delimiter && 0x0A !in delimiter
    ensures Lacks(content + CRLF, delimiter) <==> Lacks(content, delimiter)
  {
    var line := content + CRLF;
    forall i: nat | i <= |line| ensures At(line, i, delimiter) <==> At(content, i, delimiter) {
      if i + |delimiter| <= |content| {
        AtInFront(content, CRLF, i, delimiter);
      } else if At(line, i, delimiter) {
        AtHits(line, i, delimiter, i + |delimiter| - 1);
        assert false;
      }
    }
    assert forall i: nat :: At(content, i, delimiter) ==> i <= |content|;
    assert forall i: nat :: At(line, i, delimiter) ==> i <= |line|;
  }

  lemma DelimiterAhead(content: seq<Byte>, delimiter: seq<Byte>, tail: seq<Byte>)
    requires delimiter != [] && 0x0D !in delimiter && 0x0A !in delimiter
    ensures At(content + CRLF + (delimiter + tail), |content| + 2, delimiter)
    ensures At(content + CRLF + (delimiter + tail), |content|, CRLF + delimiter)
  {
    var text := content + CRLF + (delimiter + tail);
    AtJoint(content + CRLF, delimiter + tail, delimiter);
    assert text[|content|..|content| + 2 + |delimiter|] == CRLF + delimiter;
  }

  /**
    The scanner resumes at the first bare delimiter after a part's header.  It
    resumes at the true end of the part exactly when the content lacks it.
  */
  lemma ResumesAtPartEnd(content: seq<Byte>, delimiter: seq<Byte>, tail: seq<Byte>)
    requires delimiter != [] && 0x0D !in delimiter && 0x0A !in delimiter
    ensures First(content + CRLF + (delimiter + tail), delimiter) == Some(|content| + 2) <==> Lacks(content, delimiter)
  {
    hide First;
    var line := content + CRLF;
    LineLacks(content, delimiter);
    if Lacks(line, delimiter) {
      FirstAfterGap(line, delimiter, tail);
    } else {
      var i: nat :| i <= |line| && At(line, i, delimiter);
      AtInFront(line, delimiter + tail, i, delimiter);
    }
  }

  /** Content without a delimiter line, as section 5.1.1 of RFC 2046 demands, is measured exactly. */
  lemma ContentMeasured(content: seq<Byte>, delimiter: seq<Byte>, tail: seq<Byte>)
    requires delimiter != [] && 0x0D !in delimiter && 0x0A !in delimiter && Lacks(content, CRLF + delimiter)
    ensures First(content + CRLF + (delimiter + tail), CRLF + delimiter) == Some(|content|)
  {
    hide First;
    var text := content + CRLF + (delimiter + tail);
    DelimiterAhead(content, delimiter, tail);
    forall i: nat | i < |content| ensures !At(text, i, CRLF + delimiter) {
      if i + 2 + |delimiter| <= |content| {
        assert content + CRLF + (delimiter + tail) == content + (CRLF + (delimiter + tail));
        AtInFront(content, CRLF + (delimiter + tail), i, CRLF + delimiter);
      } else {
        NotAcrossLineEnd(text, i, delimiter, |content|);
      }
    }
    FirstIs(text, CRLF + delimiter, |content|);
  }

  /** A delimiter line holds no line break but its first two bytes. */
  lemma NotAcrossLineEnd(text: seq<Byte>, i: nat, delimiter: seq<Byte>, k: nat)
    requires 0x0D !in delimiter && i < k < i + 2 + |delimiter| && k < |text| && text[k] == 0x0D
    ensures !At(text, i, CRLF + delimiter)
  {
    var pattern := CRLF + delimiter;
    assert pattern[k - i] != 0x0D;
    assert i + |pattern| <= |text| ==> text[i..i + |pattern|][k - i] == text[k];
  }

  /** Content without the bare delimiter holds no delimiter line. */
  lemma LacksLine(content: seq<Byte>, delimiter: seq<Byte>)
    requires Lacks(content, delimiter)
    ensures Lacks(content, CRLF + delimiter)
  {
    forall i: nat | i <= |content| ensures !At(content, i, CRLF + delimiter) {
      AtSecond(content, i, CRLF, delimiter);
    }
  }

  lemma AtSecond(text: seq<Byte>, i: nat, a: seq<Byte>, b: seq<Byte>)
    ensures At(text, i, a + b) ==> At(text, i + |a|, b)
  {
    if At(text, i, a + b) { assert text[i + |a|..i + |a| + |b|] == (a + b)[|a|..]; }
  }

  lemma HeaderFound(header: seq<Byte>, tail: seq<Byte>)
    requires HeaderOk(header)
    ensures First(header + BLANK_LINE + tail, BLANK_LINE) == Some(|header|)
  {
    hide First;
    var block := header + BLANK_LINE;
    forall i: nat | i <= |header| ensures At(block + tail, i, BLANK_LINE) <==> At(block, i, BLANK_LINE) {
      AtInFront(block, tail, i, BLANK_LINE);
    }
    FirstIs(block + tail, BLANK_LINE, |header|);
  }

  // ------------------------------------------------------------ the scanner judges the parts

  ghost predicate PartOk(part: Part, delimiter: seq<Byte>) {
    HeaderOk(part.header) && Lacks(part.content, delimiter)
  }

  lemma LinesStart(parts: seq<Part>, delimiter: seq<Byte>, tail: seq<Byte>) returns (behind: seq<Byte>)
    ensures Lines(parts, delimiter, delimiter + tail) == delimiter + behind
  {
    behind := Lines(parts, delimiter, delimiter + tail)[|delimiter|..];
  }

  /** From the delimiter on, the scanner reads the part behind it. */
  lemma ScanOpens(
    gap: seq<Byte>, delimiter: seq<Byte>, block: seq<Byte>, limits: Limits, parse: Parser, files: nat, fields: nat)
    requires delimiter != [] && Lacks(gap, delimiter) && (gap != [] ==> gap[|gap| - 1] !in delimiter)
    ensures Scan(gap + (delimiter + (CRLF + block)), delimiter, limits, parse, files, fields)
      == ReadPart(block, delimiter, limits, parse, files, fields)
  {
    hide First, Lacks, ReadPart, At, Scan;
    FirstAfterGap(gap, delimiter, CRLF + block);
    LineStarts(block);
    ScanFinds(gap, delimiter, CRLF + block, limits, parse, files, fields);
  }

  /** Where the next delimiter is known, the scanner goes on behind it. */
  lemma ScanFinds(
    gap: seq<Byte>, delimiter: seq<Byte>, after: seq<Byte>, limits: Limits, parse: Parser, files: nat, fields: nat)
    requires delimiter != [] && First(gap + (delimiter + after), delimiter) == Some(|gap|)
    ensures Scan(gap + (delimiter + after), delimiter, limits, parse, files, fields) ==
      if At(after, 0, DASHES) then Accepted
      else if !At(after, 0, CRLF) then MalformedBoundary
      else ReadPart(after[2..], delimiter, limits, parse, files, fields)
  {
    hide First, ReadPart;
    assert (gap + (delimiter + after))[|gap| + |delimiter|..] == after;
  }

  lemma LineStarts(block: seq<Byte>)
    ensures var line := CRLF + block; At(line, 0, CRLF) && !At(line, 0, DASHES) && line[2..] == block
  {
    StartsWith(CRLF + block, DASHES);
  }

  lemma ReadsPart(
    part: Part, delimiter: seq<Byte>, rest: seq<Byte>, limits: Limits, parse: Parser, files: nat, fields: nat)
    requires delimiter != [] && HeaderOk(part.header) && First(rest, CRLF + delimiter) == Some(|part.content|)
    ensures ReadPart(part.header + BLANK_LINE + rest, delimiter, limits, parse, files, fields)
      == JudgePart(part, limits, parse, files, fields,
                   Scan(rest, delimiter, limits, parse, FilesAfter(part, parse, files),
                     FieldsAfter(part, parse, fields)))
  {
    hide First, Scan, HeaderOk;
    var block := part.header + BLANK_LINE + rest;
    HeaderFound(part.header, rest);
    assert block[..|part.header|] == part.header;
    assert block[|part.header| + 4..] == rest;
  }

  lemma ScanEnd(
    gap: seq<Byte>, delimiter: seq<Byte>, epilogue: seq<Byte>, limits: Limits, parse: Parser, files: nat, fields: nat)
    requires delimiter != [] && Lacks(gap, delimiter) && (gap != [] ==> gap[|gap| - 1] !in delimiter)
    ensures Scan(gap + (delimiter + (DASHES + epilogue)), delimiter, limits, parse, files, fields) == Accepted
  {
    hide First, Lacks, Scan, ReadPart;
    FirstAfterGap(gap, delimiter, DASHES + epilogue);
    ScanFinds(gap, delimiter, DASHES + epilogue, limits, parse, files, fields);
  }

  /** What lies between the last part and the delimiter that follows it. */
  function LastGap(gap: seq<Byte>, parts: seq<Part>): seq<Byte> {
    if parts == [] then gap else parts[|parts| - 1].content + CRLF
  }

  /** The scanner judges the parts in front of any delimiter, and if they fit goes on there. */
  lemma {:induction false} ScanJudges(
    gap: seq<Byte>, parts: seq<Part>, delimiter: seq<Byte>, tail: seq<Byte>, limits: Limits, parse: Parser, files: nat,
      fields: nat)
    requires delimiter != [] && 0x0D !in delimiter && 0x0A !in delimiter
    requires forall p :: p in parts ==> PartOk(p, delimiter)
    requires Lacks(gap, delimiter) && (gap != [] ==> gap[|gap| - 1] !in delimiter)
    ensures Scan(gap + Lines(parts, delimiter, delimiter + tail), delimiter, limits, parse, files, fields) ==
      if Judge(parts, limits, parse, files, fields) != Accepted then Judge(parts, limits, parse, files, fields)
      else Scan(LastGap(gap, parts) + (delimiter + tail), delimiter, limits, parse,
                files + Count(parts, parse, true), fields + Count(parts, parse, false))
    decreases |parts|
  {
    hide Lacks, Scan, ReadPart, First, HeaderOk;
    if parts != [] {
      var part := parts[0];
      assert part in parts && PartOk(part, delimiter);
      var behind := LinesStart(parts[1..], delimiter, tail);
      var rest := part.content + CRLF + Lines(parts[1..], delimiter, delimiter + tail);
      ScanOpens(gap, delimiter, part.header + BLANK_LINE + rest, limits, parse, files, fields);
      LacksLine(part.content, delimiter);
      ContentMeasured(part.content, delimiter, behind);
      ReadsPart(part, delimiter, rest, limits, parse, files, fields);
      LineIsGap(part, delimiter);
      ScanJudges(part.content + CRLF, parts[1..], delimiter, tail, limits, parse, FilesAfter(part, parse, files),
        FieldsAfter(part, parse, fields));
    }
  }

  lemma LineIsGap(part: Part, delimiter: seq<Byte>)
    requires delimiter != [] && 0x0D !in delimiter && 0x0A !in delimiter && PartOk(part, delimiter)
    ensures var gap := part.content + CRLF; Lacks(gap, delimiter) && gap[|gap| - 1] !in delimiter
  {
    LineLacks(part.content, delimiter);
    hide Lacks;
  }

  /** A preamble is empty or ends a line. */
  ghost predicate PreambleOk(preamble: seq<Byte>, delimiter: seq<Byte>) {
    Lacks(preamble, delimiter) && (preamble != [] ==> preamble[|preamble| - 1] == 0x0A)
  }

  /** On any well-formed list of parts the scanner finds exactly those parts and measures them exactly. */
  lemma FindsExactlyTheParts(
    preamble: seq<Byte>, parts: seq<Part>, boundary: seq<Byte>, epilogue: seq<Byte>, limits: Limits, parse: Parser)
    requires BoundaryOk(boundary) && PreambleOk(preamble, DASHES + boundary)
    requires forall p :: p in parts ==> PartOk(p, DASHES + boundary)
    ensures Scan(preamble + Render(parts, DASHES + boundary, epilogue), DASHES + boundary, limits, parse, 0, 0)
      == Judge(parts, limits, parse, 0, 0)
  {
    hide Lacks, Scan, Judge, First, Lines;
    var delimiter := DASHES + boundary;
    ScanJudges(preamble, parts, delimiter, DASHES + epilogue, limits, parse, 0, 0);
    LastGapOk(preamble, parts, delimiter);
    ScanEnd(LastGap(preamble, parts), delimiter, epilogue, limits, parse, Count(parts, parse, true),
      Count(parts, parse, false));
  }

  lemma LastGapOk(gap: seq<Byte>, parts: seq<Part>, delimiter: seq<Byte>)
    requires delimiter != [] && 0x0D !in delimiter && 0x0A !in delimiter && PreambleOk(gap, delimiter)
    requires forall p :: p in parts ==> PartOk(p, delimiter)
    ensures var last := LastGap(gap, parts); Lacks(last, delimiter) && (last != [] ==> last[|last| - 1] !in delimiter)
  {
    hide Lacks;
    if parts != [] { LineIsGap(parts[|parts| - 1], delimiter); }
  }

  // ------------------------------------------------------------ when a body is accepted

  ghost predicate PartFits(part: Part, limits: Limits, parse: Parser) {
    && |part.header| <= MAX_HEADER_BYTES && parse(part.header).Some?
    && (parse(part.header).value ==> 0 < |part.content| <= limits.maxUploadBytes)
  }

  /** The verdict on a part is its own fault, or else the verdict on what follows. */
  lemma JudgeStep(part: Part, limits: Limits, parse: Parser, files: nat, fields: nat, following: Verdict)
    ensures var own := JudgePart(part, limits, parse, files, fields, Accepted);
      JudgePart(part, limits, parse, files, fields, following) == if own != Accepted then own else following
  {
  }

  lemma OwnVerdict(part: Part, limits: Limits, parse: Parser, files: nat, fields: nat)
    ensures JudgePart(part, limits, parse, files, fields, Accepted) == Accepted <==>
      && PartFits(part, limits, parse)
      && FilesAfter(part, parse, files) <= limits.maxFiles && FieldsAfter(part, parse, fields) <= limits.maxFields
  {
  }

  /** Accepted exactly when every part is named, no file is empty and all limits hold. */
  lemma {:induction false} AcceptedWhenAllFits(
    parts: seq<Part>, limits: Limits, parse: Parser, files: nat, fields: nat)
    requires files <= limits.maxFiles && fields <= limits.maxFields
    ensures Judge(parts, limits, parse, files, fields) == Accepted <==>
      && (forall p :: p in parts ==> PartFits(p, limits, parse))
      && files + Count(parts, parse, true) <= limits.maxFiles && fields + Count(parts, parse, false) <= limits.maxFields
    decreases |parts|
  {
    hide JudgePart, PartFits;
    if parts != [] {
      var files', fields' := FilesAfter(parts[0], parse, files), FieldsAfter(parts[0], parse, fields);
      assert forall p :: p in parts <==> p == parts[0] || p in parts[1..];
      JudgeStep(parts[0], limits, parse, files, fields, Judge(parts[1..], limits, parse, files', fields'));
      OwnVerdict(parts[0], limits, parse, files, fields);
      if files' <= limits.maxFiles && fields' <= limits.maxFields {
        AcceptedWhenAllFits(parts[1..], limits, parse, files', fields');
      }
    }
  }

  // ------------------------------------------------------------ a delimiter inside a line

  // Section 5.1.1 of RFC 2046 only reserves the delimiter at the start of a line.
  // The scanner also stops at one inside a line, so it judges such a body by what
  // happens to follow there.

  /** A part that the grammar allows, although its content holds the bare delimiter. */
  ghost predicate InlinePart(part: Part, delimiter: seq<Byte>) {
    HeaderOk(part.header) && Lacks(part.content, CRLF + delimiter) && !Lacks(part.content, delimiter)
  }

  /** The body behind the first delimiter inside the content of a part. */
  function BehindInline(part: Part, delimiter: seq<Byte>, following: seq<Byte>): seq<Byte>
    requires First(part.content, delimiter).Some?
  {
    part.content[First(part.content, delimiter).value + |delimiter|..] + CRLF + following
  }

  /** The parts in front of a body, and the rest of it. */
  lemma {:induction false} LinesSplit(a: seq<Part>, b: seq<Part>, delimiter: seq<Byte>, rest: seq<Byte>)
    ensures Lines(a + b, delimiter, rest) == Lines(a, delimiter, Lines(b, delimiter, rest))
    decreases |a|
  {
    if a == [] {
      assert a + b == b;
    } else {
      assert (a + b)[0] == a[0] && (a + b)[1..] == a[1..] + b;
      LinesSplit(a[1..], b, delimiter, rest);
    }
  }

  lemma {:induction false} JudgeSplit(
    a: seq<Part>, b: seq<Part>, limits: Limits, parse: Parser, files: nat, fields: nat)
    ensures Judge(a + b, limits, parse, files, fields) ==
      if Judge(a, limits, parse, files, fields) != Accepted then Judge(a, limits, parse, files, fields)
      else Judge(b, limits, parse, files + Count(a, parse, true), fields + Count(a, parse, false))
    decreases |a|
  {
    if a == [] {
      assert a + b == b;
    } else {
      assert (a + b)[0] == a[0] && (a + b)[1..] == a[1..] + b;
      hide JudgePart;
      var files', fields' := FilesAfter(a[0], parse, files), FieldsAfter(a[0], parse, fields);
      JudgeStep(a[0], limits, parse, files, fields, Judge(a[1..], limits, parse, files', fields'));
      JudgeStep(a[0], limits, parse, files, fields, Judge(a[1..] + b, limits, parse, files', fields'));
      JudgeSplit(a[1..], b, limits, parse, files', fields');
    }
  }

  lemma {:induction false} CountSplit(a: seq<Part>, b: seq<Part>, parse: Parser, file: bool)
    ensures Count(a + b, parse, file) == Count(a, parse, file) + Count(b, parse, file)
    decreases |a|
  {
    if a == [] {
      assert a + b == b;
    } else {
      assert (a + b)[0] == a[0] && (a + b)[1..] == a[1..] + b;
      CountSplit(a[1..], b, parse, file);
    }
  }

  /** The first delimiter of a text that holds one is not moved by what follows the text. */
  lemma FirstStays(a: seq<Byte>, b: seq<Byte>, pattern: seq<Byte>)
    requires First(a, pattern).Some?
    ensures First(a + b, pattern) == First(a, pattern)
  {
    hide First;
    var k := First(a, pattern).value;
    forall i: nat | i <= k ensures At(a + b, i, pattern) <==> At(a, i, pattern) {
      AtInFront(a, b, i, pattern);
    }
    FirstIs(a + b, pattern, k);
  }

  lemma SplitsAt(text: seq<Byte>, k: nat, pattern: seq<Byte>, tail: seq<Byte>)
    requires At(text, k, pattern)
    ensures k + |pattern| <= |text| && text + tail == text[..k] + (pattern + (text[k + |pattern|..] + tail))
  {
    assert text == text[..k] + (text[k..k + |pattern|] + text[k + |pattern|..]);
  }

  /** The scanner goes on behind the first delimiter inside the content. */
  lemma ScanStopsInline(
    part: Part, delimiter: seq<Byte>, following: seq<Byte>, limits: Limits, parse: Parser, files: nat, fields: nat)
    requires delimiter != [] && First(part.content, delimiter).Some?
    ensures Scan(part.content + CRLF + following, delimiter, limits, parse, files, fields) ==
      var behind := BehindInline(part, delimiter, following);
      if At(behind, 0, DASHES) then Accepted
      else if !At(behind, 0, CRLF) then MalformedBoundary
      else ReadPart(behind[2..], delimiter, limits, parse, files, fields)
  {
    hide First, ReadPart, Scan, At;
    var k := First(part.content, delimiter).value;
    assert part.content + CRLF + following == part.content + (CRLF + following);
    FirstStays(part.content, CRLF + following, delimiter);
    SplitsAt(part.content, k, delimiter, CRLF + following);
    assert BehindInline(part, delimiter, following) == part.content[k + |delimiter|..] + (CRLF + following);
    ScanFinds(part.content[..k], delimiter, BehindInline(part, delimiter, following), limits, parse, files, fields);
  }

  /** The verdict on one part whose content holds the delimiter, and on what the scanner reads behind it. */
  lemma ScanReadsInline(
    gap: seq<Byte>, part: Part, more: seq<Part>, delimiter: seq<Byte>, tail: seq<Byte>, limits: Limits, parse: Parser,
      files: nat, fields: nat)
    requires delimiter != [] && 0x0D !in delimiter && 0x0A !in delimiter && InlinePart(part, delimiter)
    requires Lacks(gap, delimiter) && (gap != [] ==> gap[|gap| - 1] !in delimiter)
    ensures Scan(gap + Lines([part] + more, delimiter, delimiter + tail), delimiter, limits, parse, files, fields) ==
      var behind := BehindInline(part, delimiter, Lines(more, delimiter, delimiter + tail));
      JudgePart(part, limits, parse, files, fields,
        if At(behind, 0, DASHES) then Accepted
        else if !At(behind, 0, CRLF) then MalformedBoundary
        else ReadPart(behind[2..], delimiter, limits, parse, FilesAfter(part, parse, files),
          FieldsAfter(part, parse, fields)))
  {
    hide First, ReadPart, Scan, Lacks, HeaderOk, At, JudgePart;
    var following := Lines(more, delimiter, delimiter + tail);
    var rest := part.content + CRLF + following;
    assert ([part] + more)[1..] == more;
    ScanOpens(gap, delimiter, part.header + BLANK_LINE + rest, limits, parse, files, fields);
    var start := LinesStart(more, delimiter, tail);
    ContentMeasured(part.content, delimiter, start);
    ReadsPart(part, delimiter, rest, limits, parse, files, fields);
    ScanStopsInline(part, delimiter, following, limits, parse, FilesAfter(part, parse, files),
      FieldsAfter(part, parse, fields));
  }

  /** One part is judged as a list of one. */
  lemma JudgeOne(part: Part, limits: Limits, parse: Parser, files: nat, fields: nat, following: Verdict)
    ensures JudgePart(part, limits, parse, files, fields, following) ==
      if Judge([part], limits, parse, files, fields) != Accepted
      then Judge([part], limits, parse, files, fields) else following
    ensures FilesAfter(part, parse, files) == files + Count([part], parse, true)
    ensures FieldsAfter(part, parse, fields) == fields + Count([part], parse, false)
  {
  }

  /**
    The verdict on a body whose first part with an inline delimiter stands behind
    `front`, whatever parts follow.  If the parts up to there fit, the two bytes
    behind that delimiter decide: dashes accept the body, a line break starts
    another part there, and anything else refuses it.
  */
  lemma InlineDelimiterDecides(
    preamble: seq<Byte>, front: seq<Part>, part: Part, more: seq<Part>, boundary: seq<Byte>, epilogue: seq<Byte>,
      limits: Limits, parse: Parser)
    requires BoundaryOk(boundary) && PreambleOk(preamble, DASHES + boundary)
    requires (forall p :: p in front ==> PartOk(p, DASHES + boundary)) && InlinePart(part, DASHES + boundary)
    ensures var delimiter := DASHES + boundary;
      var upTo := front + [part];
      var body := preamble + Render(front + ([part] + more), delimiter, epilogue);
      var behind := BehindInline(part, delimiter, Render(more, delimiter, epilogue));
      Scan(body, delimiter, limits, parse, 0, 0) ==
        if Judge(upTo, limits, parse, 0, 0) != Accepted then Judge(upTo, limits, parse, 0, 0)
        else if At(behind, 0, DASHES) then Accepted
        else if !At(behind, 0, CRLF) then MalformedBoundary
        else ReadPart(behind[2..], delimiter, limits, parse, Count(upTo, parse, true), Count(upTo, parse, false))
  {
    hide Lacks, Scan, Judge, First, Lines, JudgePart, At, ReadPart, Count, HeaderOk;
    var delimiter := DASHES + boundary;
    var tail := DASHES + epilogue;
    var start := LinesStart([part] + more, delimiter, tail);
    LinesSplit(front, [part] + more, delimiter, delimiter + tail);
    var files, fields := Count(front, parse, true), Count(front, parse, false);
    ScanJudges(preamble, front, delimiter, start, limits, parse, 0, 0);
    LastGapOk(preamble, front, delimiter);
    ScanReadsInline(LastGap(preamble, front), part, more, delimiter, tail, limits, parse, files, fields);
    JudgeSplit(front, [part], limits, parse, 0, 0);
    CountSplit(front, [part], parse, true);
    CountSplit(front, [part], parse, false);
    var behind := BehindInline(part, delimiter, Render(more, delimiter, epilogue));
    JudgeOne(part, limits, parse, files, fields,
      if At(behind, 0, DASHES) then Accepted
      else if !At(behind, 0, CRLF) then MalformedBoundary
      else ReadPart(behind[2..], delimiter, limits, parse, FilesAfter(part, parse, files),
        FieldsAfter(part, parse, fields)));
  }

  lemma {:induction false} JudgeNeverMalformed(parts: seq<Part>, limits: Limits, parse: Parser, files: nat, fields: nat)
    ensures Judge(parts, limits, parse, files, fields) != MalformedBoundary
    decreases |parts|
  {
    if parts != [] {
      JudgeNeverMalformed(parts[1..], limits, parse, FilesAfter(parts[0], parse, files),
        FieldsAfter(parts[0], parse, fields));
    }
  }

  /**
    The verdict is the one the parts deserve exactly when a part up to the inline
    delimiter is at fault, or when dashes follow it and all parts fit anyway, or
    when a line break follows and the part read there happens to get the verdict
    of the parts that really follow.
  */
  lemma InlineVerdictIsRight(
    preamble: seq<Byte>, front: seq<Part>, part: Part, more: seq<Part>, boundary: seq<Byte>, epilogue: seq<Byte>,
      limits: Limits, parse: Parser)
    requires BoundaryOk(boundary) && PreambleOk(preamble, DASHES + boundary)
    requires (forall p :: p in front ==> PartOk(p, DASHES + boundary)) && InlinePart(part, DASHES + boundary)
    ensures var delimiter := DASHES + boundary;
      var parts := front + ([part] + more);
      var behind := BehindInline(part, delimiter, Render(more, delimiter, epilogue));
      Scan(preamble + Render(parts, delimiter, epilogue), delimiter, limits, parse, 0, 0)
        == Judge(parts, limits, parse, 0, 0) <==>
        || Judge(front + [part], limits, parse, 0, 0) != Accepted
        || (At(behind, 0, DASHES) && Judge(parts, limits, parse, 0, 0) == Accepted)
        || (var files, fields := Count(front + [part], parse, true), Count(front + [part], parse, false);
            && At(behind, 0, CRLF) && !At(behind, 0, DASHES)
            && ReadPart(behind[2..], delimiter, limits, parse, files, fields)
               == Judge(more, limits, parse, files, fields))
  {
    hide Lacks, Scan, Judge, First, Render, At, Count, ReadPart, PartOk, InlinePart;
    InlineDelimiterDecides(preamble, front, part, more, boundary, epilogue, limits, parse);
    assert front + ([part] + more) == front + [part] + more;
    JudgeSplit(front + [part], more, limits, parse, 0, 0);
    JudgeNeverMalformed(front + ([part] + more), limits, parse, 0, 0);
  }

  /** Content with a closing delimiter inside a line. */
  function Closing(before: seq<Byte>, delimiter: seq<Byte>, behind: seq<Byte>): seq<Byte> {
    before + (delimiter + (DASHES + behind))
  }

  lemma ClosingFound(
    header: seq<Byte>, before: seq<Byte>, delimiter: seq<Byte>, behind: seq<Byte>, following: seq<Byte>)
    requires delimiter != [] && Lacks(before, delimiter) && (before != [] ==> before[|before| - 1] !in delimiter)
    ensures First(Closing(before, delimiter, behind), delimiter) == Some(|before|)
    ensures At(BehindInline(Part(header, Closing(before, delimiter, behind)), delimiter, following), 0, DASHES)
  {
    hide First, Lacks;
    FirstAfterGap(before, delimiter, DASHES + behind);
    assert Closing(before, delimiter, behind)[|before| + |delimiter|..] == DASHES + behind;
  }

  /**
    A closing delimiter inside a line ends the scan: if the parts up to there fit,
    the body is accepted whatever parts follow, and no limit is checked on them.
  */
  lemma InlineCloseHidesTheRest(
    preamble: seq<Byte>, front: seq<Part>, header: seq<Byte>, before: seq<Byte>, behind: seq<Byte>, more: seq<Part>,
    boundary: seq<Byte>, epilogue: seq<Byte>, limits: Limits, parse: Parser)
    requires BoundaryOk(boundary) && PreambleOk(preamble, DASHES + boundary) && HeaderOk(header)
    requires forall p :: p in front ==> PartOk(p, DASHES + boundary)
    requires Lacks(before, DASHES + boundary) && (before != [] ==> before[|before| - 1] !in DASHES + boundary)
    requires var part := Part(header, Closing(before, DASHES + boundary, behind));
      Lacks(part.content, CRLF + (DASHES + boundary)) && Judge(front + [part], limits, parse, 0, 0) == Accepted
    ensures var delimiter := DASHES + boundary;
      var part := Part(header, Closing(before, delimiter, behind));
      var body := preamble + Render(front + ([part] + more), delimiter, epilogue);
      Scan(body, delimiter, limits, parse, 0, 0) == Accepted
  {
    hide Lacks, Scan, Judge, First, Render, At, Count, ReadPart, PartOk, HeaderOk, Closing;
    var delimiter := DASHES + boundary;
    var part := Part(header, Closing(before, delimiter, behind));
    ClosingFound(header, before, delimiter, behind, Render(more, delimiter, epilogue));
    InlineDelimiterDecides(preamble, front, part, more, boundary, epilogue, limits, parse);
  }

  lemma ShorterLacks(text: seq<Byte>, pattern: seq<Byte>)
    requires |text| < |pattern|
    ensures Lacks(text, pattern)
  {
  }

  lemma OneByteHeader(b: Byte)
    requires b != 0x0D
    ensures HeaderOk([b])
  {
    hide First;
    var text := [b] + BLANK_LINE;
    StartsWith(text, BLANK_LINE);
    assert text[1..5] == BLANK_LINE;
    FirstIs(text, BLANK_LINE, 1);
  }

  lemma NoLineBreakNoLine(content: seq<Byte>, delimiter: seq<Byte>)
    requires 0x0D !in content
    ensures Lacks(content, CRLF + delimiter)
  {
    forall i: nat | i <= |content| ensures !At(content, i, CRLF + delimiter) {
      assert i + 2 + |delimiter| <= |content| ==> content[i..i + 2 + |delimiter|][0] == content[i];
    }
  }

  lemma FieldThenEmptyFile(field: Part, file: Part, limits: Limits, parse: Parser)
    requires parse(field.header) == Some(false) && parse(file.header) == Some(true) && file.content == []
    requires |field.header| <= MAX_HEADER_BYTES && |file.header| <= MAX_HEADER_BYTES && limits.maxFiles >= 1
      && limits.maxFields >= 1
    ensures Judge([field], limits, parse, 0, 0) == Accepted && Judge([field, file], limits, parse, 0, 0) == EmptyFile
  {
    assert [field, file][1..] == [file];
  }

  /** A body that is accepted although it holds an empty file. */
  lemma EmptyFileAccepted() returns (parts: seq<Part>, boundary: seq<Byte>, limits: Limits, parse: Parser)
    ensures BoundaryOk(boundary) && forall p :: p in parts ==>
      HeaderOk(p.header) && Lacks(p.content, CRLF + (DASHES + boundary))
    ensures Judge(parts, limits, parse, 0, 0) == EmptyFile
    ensures Scan(Render(parts, DASHES + boundary, []), DASHES + boundary, limits, parse, 0, 0) == Accepted
  {
    hide Scan, Judge, Render, First, Lacks, At, HeaderOk;
    boundary, limits, parse := [0x62], Limits(1, 1, 1), h => Some(h == [0x66]);
    var delimiter := DASHES + boundary;
    var field, file := Part([0x65], Closing([0x61], delimiter, [])), Part([0x66], []);
    parts := [field, file];
    OneByteHeader(0x65);
    OneByteHeader(0x66);
    NoLineBreakNoLine(field.content, delimiter);
    NoLineBreakNoLine(file.content, delimiter);
    ShorterLacks([], delimiter);
    ShorterLacks([0x61], delimiter);
    FieldThenEmptyFile(field, file, limits, parse);
    assert [] + [field] == [field] && [] + ([field] + [file]) == parts;
    assert [] + Render(parts, delimiter, []) == Render(parts, delimiter, []);
    InlineCloseHidesTheRest([], [], [0x65], [0x61], [], [file], boundary, [], limits, parse);
  }
}
