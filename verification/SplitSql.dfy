/**
  The SQL statement splitter of the migration runner: a scanner over quotes,
  comments and dollar-quoted bodies that cuts at plain semicolons.
*/
module SplitSql {
  import opened Basics
  import opened Text

  datatype Mode = Plain | LineComment | BlockComment | Dollar(tag: string) | Quote(mark: char)

  // ------------------------------------------------------------ the scanner

  predicate IsLetter(c: char) {
    'A' <= c <= 'Z' || 'a' <= c <= 'z' || c == '_'
  }

  predicate IsWord(c: char) {
    IsLetter(c) || '0' <= c <= '9'
  }

  /** The end of the run of word characters from `i` on. */
  function WordEnd(s: string, i: nat): (r: nat)
    requires i <= |s|
    ensures i <= r <= |s| && (forall k :: i <= k < r ==> IsWord(s[k])) && (r < |s| ==> !IsWord(s[r]))
    decreases |s| - i
  {
    if i < |s| && IsWord(s[i]) then WordEnd(s, i + 1) else i
  }

  /** The length of the dollar quote tag at `i`, or zero. */
  function TagLength(s: string, i: nat): (r: nat)
    requires i < |s|
    ensures r == 0 || (2 <= r && i + r <= |s| && ';' !in s[i..i + r])
  {
    if s[i] != '$' || i + 1 == |s| then 0
    else if s[i + 1] == '$' then 2
    else if !IsLetter(s[i + 1]) then 0
    else
      var e := WordEnd(s, i + 2);
      if e < |s| && s[e] == '$' then e + 1 - i else 0
  }

  /** One turn of the loop: the next index and mode. */
  function Step(s: string, i: nat, mode: Mode): (r: (nat, Mode))
    requires i < |s|
    ensures i < r.0 <= |s|
  {
    match mode
    case LineComment => (i + 1, if s[i] == '\n' then Plain else LineComment)
    case BlockComment => if At(s, i, "*/") then (i + 2, Plain) else (i + 1, BlockComment)
    case Dollar(tag) => if tag != "" && At(s, i, tag) then (i + |tag|, Plain) else (i + 1, mode)
    case Quote(mark) =>
      if s[i] != mark then (i + 1, mode)
      else if mark == '\'' && At(s, i + 1, "'") then (i + 2, mode)
      else (i + 1, Plain)
    case Plain =>
      if At(s, i, "--") then (i + 2, LineComment)
      else if At(s, i, "/*") then (i + 2, BlockComment)
      else if s[i] == '\'' || s[i] == '"' then (i + 1, Quote(s[i]))
      else if TagLength(s, i) > 0 then (i + TagLength(s, i), Dollar(s[i..i + TagLength(s, i)]))
      else (i + 1, Plain)
  }

  /** The mode of the scanner when it stands at `p`, if it ever does. */
  function Visit(s: string, i: nat, mode: Mode, p: nat): Option<Mode>
    requires i <= |s|
    decreases |s| - i
  {
    if i == p then Some(mode)
    else if i > p || i == |s| then None
    else Visit(s, Step(s, i, mode).0, Step(s, i, mode).1, p)
  }

  predicate PlainSemicolon(s: string, p: nat) {
    p < |s| && s[p] == ';' && Visit(s, 0, Plain, p) == Some(Plain)
  }

  function Piece(s: string): seq<string> {
    if Strip(s) == "" then [] else [Strip(s)]
  }

  function Split(s: string, start: nat, i: nat, mode: Mode): seq<string>
    requires start <= i <= |s|
    decreases |s| - i
  {
    if i == |s| then Piece(s[start..])
    else if mode == Plain && s[i] == ';' then Piece(s[start..i]) + Split(s, i + 1, i + 1, Plain)
    else Split(s, start, Step(s, i, mode).0, Step(s, i, mode).1)
  }

  // ------------------------------------------------------------ the loop

  function ModeOf(quote: Option<char>, dollarTag: Option<string>, lineComment: bool, blockComment: bool): Mode {
    if lineComment then LineComment
    else if blockComment then BlockComment
    else if dollarTag.Some? then Dollar(dollarTag.value)
    else if quote.Some? then Quote(quote.value)
    else Plain
  }

  lemma SplitUnfolds(s: string, start: nat, i: nat, mode: Mode)
    requires start <= i < |s|
    ensures mode == Plain && s[i] == ';' ==>
      Split(s, start, i, mode) == Piece(s[start..i]) + Split(s, i + 1, i + 1, Plain)
    ensures !(mode == Plain && s[i] == ';') ==>
      Split(s, start, i, mode) == Split(s, start, Step(s, i, mode).0, Step(s, i, mode).1)
  {
  }

  lemma SplitEnds(s: string, start: nat, mode: Mode)
    requires start <= |s|
    ensures Split(s, start, |s|, mode) == Piece(s[start..])
  {
  }

  /** At most one of the four scanner variables is set. */
  predicate FlagsOk(quote: Option<char>, dollarTag: Option<string>, lineComment: bool, blockComment: bool) {
    && (lineComment || blockComment ==> quote.None? && dollarTag.None?)
    && (lineComment ==> !blockComment)
    && (dollarTag.Some? ==> quote.None? && dollarTag.value != "")
  }

  /** One turn of the loop inside a comment, a dollar-quoted body or a quote. */
  method SkipInside(
    script: string, i: nat, quote: Option<char>, dollarTag: Option<string>, lineComment: bool, blockComment: bool)
    returns (index: nat, quote': Option<char>, dollarTag': Option<string>, lineComment': bool, blockComment': bool)
    requires i < |script| && FlagsOk(quote, dollarTag, lineComment, blockComment)
    requires ModeOf(quote, dollarTag, lineComment, blockComment) != Plain
    ensures FlagsOk(quote', dollarTag', lineComment', blockComment')
    ensures (index, ModeOf(quote', dollarTag', lineComment', blockComment'))
      == Step(script, i, ModeOf(quote, dollarTag, lineComment, blockComment))
  {
    index, quote', dollarTag', lineComment', blockComment' := i, quote, dollarTag, lineComment, blockComment;
    if lineComment {
      if script[index] == '\n' { lineComment' := false; }
      index := index + 1;
    } else if blockComment {
      if At(script, index, "*/") {
        blockComment' := false;
        index := index + 2;
      } else {
        index := index + 1;
      }
    } else if dollarTag.Some? {
      if At(script, index, dollarTag.value) {
        index := index + |dollarTag.value|;
        dollarTag' := None;
      } else {
        index := index + 1;
      }
    } else {
      if script[index] == quote.value {
        if quote.value == '\'' && At(script, index + 1, "'") {
          index := index + 2;
          return;
        }
        quote' := None;
      }
      index := index + 1;
    }
  }

  /** One turn of the loop in plain text, except for the cut at a semicolon. */
  method SkipPlain(script: string, i: nat)
    returns (index: nat, quote: Option<char>, dollarTag: Option<string>, lineComment: bool, blockComment: bool)
    requires i < |script|
    ensures FlagsOk(quote, dollarTag, lineComment, blockComment)
    ensures (index, ModeOf(quote, dollarTag, lineComment, blockComment)) == Step(script, i, Plain)
  {
    index, quote, dollarTag, lineComment, blockComment := i, None, None, false, false;
    if At(script, index, "--") {
      lineComment := true;
      index := index + 2;
    } else if At(script, index, "/*") {
      blockComment := true;
      index := index + 2;
    } else if script[index] == '\'' || script[index] == '"' {
      quote := Some(script[index]);
      index := index + 1;
    } else {
      var matched := TagLength(script, index);
      if matched > 0 {
        dollarTag := Some(script[index..index + matched]);
        index := index + matched;
      } else {
        index := index + 1;
      }
    }
  }

  method SplitScript(script: string) returns (statements: seq<string>)
    ensures statements == Split(script, 0, 0, Plain)
  {
    hide Split, Strip, Step, FlagsOk;
    statements := [];
    var start, index := 0, 0;
    var quote: Option<char>, dollarTag: Option<string> := None, None;
    var lineComment, blockComment := false, false;
    assert FlagsOk(quote, dollarTag, lineComment, blockComment) by { NoFlags(); }
    while index < |script|
      invariant start <= index <= |script| && FlagsOk(quote, dollarTag, lineComment, blockComment)
      invariant statements + Split(script, start, index, ModeOf(quote, dollarTag, lineComment, blockComment))
        == Split(script, 0, 0, Plain)
    {
      SplitUnfolds(script, start, index, ModeOf(quote, dollarTag, lineComment, blockComment));
      if lineComment || blockComment || dollarTag.Some? || quote.Some? {
        index, quote, dollarTag, lineComment,
          blockComment := SkipInside(script, index, quote, dollarTag, lineComment, blockComment);
      } else if script[index] != ';' {
        index, quote, dollarTag, lineComment, blockComment := SkipPlain(script, index);
      } else {
        var statement := Strip(script[start..index]);
        if statement != "" { statements := statements + [statement]; }
        start := index + 1;
        index := index + 1;
      }
    }
    SplitEnds(script, start, ModeOf(quote, dollarTag, lineComment, blockComment));
    var statement := Strip(script[start..]);
    if statement != "" { statements := statements + [statement]; }
  }

  lemma NoFlags()
    ensures FlagsOk(None, None, false, false)
  {
  }

  // ------------------------------------------------------------ no token crosses a semicolon

  /** Dollar tags are non-empty and hold no semicolon. */
  predicate Sound(mode: Mode) {
    mode.Dollar? ==> mode.tag != "" && ';' !in mode.tag
  }

  lemma StepSound(s: string, i: nat, mode: Mode)
    requires i < |s| && Sound(mode)
    ensures Sound(Step(s, i, mode).1)
  {
    hide At, WordEnd;
  }

  /** Text `a` cut off before a semicolon. */
  ghost predicate CutAt(s: string, n: nat, a: string) {
    n < |s| && s[n] == ';' && a == s[..n]
  }

  lemma SliceIsLocal(s: string, n: nat, i: nat, j: nat)
    requires i <= j <= n <= |s|
    ensures s[i..j] == s[..n][i..j]
  {
    var a := s[..n];
    assert |s[i..j]| == |a[i..j]|;
    forall k | 0 <= k < j - i ensures s[i..j][k] == a[i..j][k] {
      assert s[i + k] == a[i + k];
    }
  }

  lemma SliceShifts(s: string, k: nat, i: nat, j: nat)
    requires i <= j && k + j <= |s|
    ensures s[k + i..k + j] == s[k..][i..j]
  {
    var tail := s[k..];
    assert |s[k + i..k + j]| == |tail[i..j]|;
    forall p | 0 <= p < j - i ensures s[k + i..k + j][p] == tail[i..j][p] {
      assert s[k + i + p] == tail[i + p];
    }
  }

  lemma AtIsLocal(s: string, n: nat, a: string, i: nat, pattern: string)
    requires CutAt(s, n, a) && i <= n && ';' !in pattern
    ensures At(s, i, pattern) <==> At(a, i, pattern)
  {
    assert n < i + |pattern| <= |s| ==> s[i..i + |pattern|][n - i] == ';';
    if i + |pattern| <= n { SliceIsLocal(s, n, i, i + |pattern|); }
  }

  lemma {:induction false} WordEndIsLocal(s: string, n: nat, a: string, i: nat)
    requires CutAt(s, n, a) && i <= n
    ensures WordEnd(s, i) == WordEnd(a, i)
    decreases n - i
  {
    if i < n && IsWord(s[i]) { WordEndIsLocal(s, n, a, i + 1); }
  }

  lemma TagIsLocal(s: string, n: nat, a: string, i: nat)
    requires CutAt(s, n, a) && i < n
    ensures TagLength(s, i) == TagLength(a, i) && i + TagLength(s, i) <= n
  {
    if i + 2 <= n { WordEndIsLocal(s, n, a, i + 2); }
  }

  /** A step before a semicolon does not look past it. */
  lemma StepIsLocal(s: string, n: nat, a: string, i: nat, mode: Mode)
    requires CutAt(s, n, a) && i < n && Sound(mode)
    ensures Step(s, i, mode) == Step(a, i, mode)
  {
    TagIsLocal(s, n, a, i);
    AtIsLocal(s, n, a, i, "--");
    AtIsLocal(s, n, a, i, "/*");
    AtIsLocal(s, n, a, i, "*/");
    AtIsLocal(s, n, a, i + 1, "'");
    if mode.Dollar? { AtIsLocal(s, n, a, i, mode.tag); }
    hide At, TagLength;
    if TagLength(s, i) > 0 { SliceIsLocal(s, n, i, i + TagLength(s, i)); }
  }

  // ------------------------------------------------------------ steps do not depend on what was scanned before

  lemma AtShifts(s: string, k: nat, i: nat, pattern: string)
    requires k + i <= |s|
    ensures At(s, k + i, pattern) <==> At(s[k..], i, pattern)
  {
    if k + i + |pattern| <= |s| { SliceShifts(s, k, i, i + |pattern|); }
  }

  lemma {:induction false} WordEndShifts(s: string, k: nat, i: nat)
    requires k + i <= |s|
    ensures WordEnd(s, k + i) == k + WordEnd(s[k..], i)
    decreases |s| - k - i
  {
    if k + i < |s| && IsWord(s[k + i]) { WordEndShifts(s, k, i + 1); }
  }

  lemma TagShifts(s: string, k: nat, i: nat)
    requires k + i < |s|
    ensures TagLength(s, k + i) == TagLength(s[k..], i)
  {
    if k + i + 2 <= |s| { WordEndShifts(s, k, i + 2); }
  }

  lemma StepShifts(s: string, k: nat, i: nat, mode: Mode)
    requires k + i < |s|
    ensures var here, there := Step(s, k + i, mode), Step(s[k..], i, mode); here.0 == k + there.0 && here.1 == there.1
  {
    TagShifts(s, k, i);
    AtShifts(s, k, i, "--");
    AtShifts(s, k, i, "/*");
    AtShifts(s, k, i, "*/");
    AtShifts(s, k, i + 1, "'");
    if mode.Dollar? { AtShifts(s, k, i, mode.tag); }
    hide At, TagLength;
    if TagLength(s, k + i) > 0 { SliceShifts(s, k, i, i + TagLength(s, k + i)); }
  }

  lemma {:induction false} SplitShifts(s: string, k: nat, start: nat, i: nat, mode: Mode)
    requires start <= i && k + i <= |s|
    ensures Split(s, k + start, k + i, mode) == Split(s[k..], start, i, mode)
    decreases |s| - k - i
  {
    hide Piece, Step;
    SliceShifts(s, k, start, i);
    if k + i == |s| {
      assert s[k + start..] == s[k + start..k + i] && s[k..][start..] == s[k..][start..i];
    } else if mode == Plain && s[k + i] == ';' {
      SplitShifts(s, k, i + 1, i + 1, Plain);
    } else {
      StepShifts(s, k, i, mode);
      SplitShifts(s, k, start, Step(s[k..], i, mode).0, Step(s[k..], i, mode).1);
    }
  }

  // ------------------------------------------------------------ splitting undoes joining

  /** A statement that can stand alone: trimmed, complete and without a semicolon of its own. */
  ghost predicate Statement(t: string) {
    && t != "" && Strip(t) == t
    && Visit(t, 0, Plain, |t|) == Some(Plain)
    && forall p :: 0 <= p < |t| ==> !PlainSemicolon(t, p)
  }

  function Join(statements: seq<string>): string {
    if statements == [] then ""
    else if |statements| == 1 then statements[0]
    else statements[0] + ";" + Join(statements[1..])
  }

  /** From `i` on, the scanner reaches the end of `a` in plain mode without meeting a plain semicolon. */
  ghost predicate Runs(a: string, i: nat, mode: Mode) {
    && i <= |a| && Visit(a, i, mode, |a|) == Some(Plain)
    && forall p :: i <= p < |a| && a[p] == ';' ==> Visit(a, i, mode, p) != Some(Plain)
  }

  lemma RunsOn(a: string, i: nat, mode: Mode)
    requires Runs(a, i, mode) && i < |a|
    ensures !(mode == Plain && a[i] == ';') && Runs(a, Step(a, i, mode).0, Step(a, i, mode).1)
  {
    hide Step;
    var (j, next) := Step(a, i, mode);
    forall p | j <= p < |a| && a[p] == ';' ensures Visit(a, j, next, p) != Some(Plain) {
      assert Visit(a, i, mode, p) == Visit(a, j, next, p);
    }
  }

  lemma {:induction false} SplitAtCut(s: string, n: nat, a: string, start: nat, i: nat, mode: Mode)
    requires CutAt(s, n, a) && start <= i <= n && Sound(mode) && Runs(a, i, mode)
    ensures Split(s, start, i, mode) == Piece(s[start..n]) + Split(s, n + 1, n + 1, Plain)
    decreases n - i
  {
    hide Step, Piece, Strip;
    if i < n {
      RunsOn(a, i, mode);
      StepIsLocal(s, n, a, i, mode);
      StepSound(s, i, mode);
      SplitAtCut(s, n, a, start, Step(s, i, mode).0, Step(s, i, mode).1);
    }
  }

  lemma {:induction false} SplitToEnd(a: string, start: nat, i: nat, mode: Mode)
    requires start <= i <= |a| && Runs(a, i, mode)
    ensures Split(a, start, i, mode) == Piece(a[start..])
    decreases |a| - i
  {
    hide Step, Piece, Strip;
    if i < |a| {
      RunsOn(a, i, mode);
      SplitToEnd(a, start, Step(a, i, mode).0, Step(a, i, mode).1);
    }
  }

  lemma StatementRuns(t: string)
    requires Statement(t)
    ensures Runs(t, 0, Plain) && Piece(t) == [t]
  {
    hide Visit, Strip;
    forall p | 0 <= p < |t| && t[p] == ';' ensures Visit(t, 0, Plain, p) != Some(Plain) {
      assert !PlainSemicolon(t, p);
    }
  }

  lemma SplitFirst(t: string, rest: string)
    requires Statement(t)
    ensures Split(t + ";" + rest, 0, 0, Plain) == [t] + Split(rest, 0, 0, Plain)
  {
    hide Statement, Visit, Split, Piece, Strip;
    var s := t + ";" + rest;
    StatementRuns(t);
    assert s[0..|t|] == t && s[..|t|] == t && s[|t| + 1..] == rest;
    SplitAtCut(s, |t|, t, 0, 0, Plain);
    SplitShifts(s, |t| + 1, 0, 0, Plain);
  }

  lemma SplitOnly(t: string)
    requires Statement(t)
    ensures Split(t, 0, 0, Plain) == [t]
  {
    hide Statement, Visit, Split, Piece, Strip;
    StatementRuns(t);
    SplitToEnd(t, 0, 0, Plain);
    assert t[0..] == t;
  }

  /** Splitting the semicolon-joined text of any list of statements gives the list back. */
  lemma {:induction false} SplitUndoesJoin(statements: seq<string>)
    requires forall t :: t in statements ==> Statement(t)
    ensures Split(Join(statements), 0, 0, Plain) == statements
  {
    hide Statement;
    if statements == [] {
      assert Strip("") == "";
    } else {
      hide Split;
      var t, rest := statements[0], statements[1..];
      assert statements == [t] + rest;
      if rest == [] {
        SplitOnly(t);
      } else {
        SplitFirst(t, Join(rest));
        SplitUndoesJoin(rest);
      }
    }
  }

  // ------------------------------------------------------------ every piece is a slice

  datatype Slice = Slice(from: nat, to: nat)

  lemma StripIsSlice(t: string)
    ensures var l, r := |t| - |StripLeft(t)|, Strip(t);
      && 0 <= l && l + |r| <= |t| && t[l..l + |r|] == r
      && forall p :: 0 <= p < |t| && !(l <= p < l + |r|) ==> IsSpace(t[p])
  {
    var left := StripLeft(t);
    hide IsSpace, StripLeft, StripRight;
    var l, r := |t| - |left|, Strip(t);
    assert forall p :: l <= p < |t| ==> t[p] == left[p - l];
    assert t[l..l + |r|] == left[..|r|];
  }

  lemma StripTwice(t: string)
    ensures Strip(Strip(t)) == Strip(t)
  {
    hide IsSpace;
    var r := Strip(t);
    assert StripLeft(r) == r;
    assert StripRight(r) == r;
  }

  function Trimmed(s: string, start: nat, end: nat): (r: Slice)
    requires start <= end <= |s|
  {
    var t := s[start..end];
    var from := start + |t| - |StripLeft(t)|;
    Slice(from, from + |Strip(t)|)
  }

  lemma TrimmedIs(s: string, start: nat, end: nat)
    requires start <= end <= |s|
    ensures var r := Trimmed(s, start, end);
      && start <= r.from <= r.to <= end && s[r.from..r.to] == Strip(s[start..end])
      && forall p :: start <= p < end && !(r.from <= p < r.to) ==> IsSpace(s[p])
  {
    hide IsSpace, Strip, StripLeft;
    var t := s[start..end];
    StripIsSlice(t);
    assert forall p :: start <= p < end ==> s[p] == t[p - start];
  }

  function PieceSlice(s: string, start: nat, end: nat): seq<Slice>
    requires start <= end <= |s|
  {
    if Strip(s[start..end]) == "" then [] else [Trimmed(s, start, end)]
  }

  function Slices(s: string, start: nat, i: nat, mode: Mode): seq<Slice>
    requires start <= i <= |s|
    decreases |s| - i
  {
    if i == |s| then PieceSlice(s, start, |s|)
    else if mode == Plain && s[i] == ';' then PieceSlice(s, start, i) + Slices(s, i + 1, i + 1, Plain)
    else Slices(s, start, Step(s, i, mode).0, Step(s, i, mode).1)
  }

  ghost predicate Covered(slices: seq<Slice>, p: nat) {
    exists k :: 0 <= k < |slices| && slices[k].from <= p < slices[k].to
  }

  /** The pieces are non-empty slices of `s` from `start` on, in order. */
  ghost predicate OrderedSlices(s: string, start: nat, slices: seq<Slice>, pieces: seq<string>) {
    && |pieces| == |slices|
    && (forall k :: 0 <= k < |slices| ==>
         start <= slices[k].from < slices[k].to <= |s| && pieces[k] == s[slices[k].from..slices[k].to])
    && (forall j, k :: 0 <= j < k < |slices| ==> slices[j].to <= slices[k].from)
  }

  /** Only whitespace and plain semicolons lie outside the slices, and no plain semicolon inside. */
  ghost predicate PlainGaps(s: string, start: nat, slices: seq<Slice>) {
    forall p :: start <= p < |s| ==>
      if Covered(slices, p) then !PlainSemicolon(s, p) else IsSpace(s[p]) || PlainSemicolon(s, p)
  }

  ghost predicate AllTrimmed(pieces: seq<string>) {
    forall t :: t in pieces ==> Strip(t) == t
  }

  ghost predicate SemicolonIn(s: string, from: nat, to: nat) {
    exists p :: from <= p < to && PlainSemicolon(s, p)
  }

  /** A plain semicolon lies between any slice and the next. */
  ghost predicate Separated(s: string, slices: seq<Slice>) {
    forall k :: 0 <= k < |slices| - 1 ==> SemicolonIn(s, slices[k].to, slices[k + 1].from)
  }

  ghost predicate CutsOf(s: string, start: nat, slices: seq<Slice>, pieces: seq<string>) {
    OrderedSlices(s, start, slices, pieces) && AllTrimmed(pieces) && PlainGaps(s, start, slices) && Separated(s, slices)
  }

  lemma {:induction false} VisitComposes(s: string, i: nat, mode: Mode, j: nat, p: nat)
    requires i <= j <= p && i <= |s| && j <= |s| && Visit(s, i, mode, j).Some?
    ensures Visit(s, i, mode, p) == Visit(s, j, Visit(s, i, mode, j).value, p)
    decreases |s| - i
  {
    hide Step;
    if i < j { VisitComposes(s, Step(s, i, mode).0, Step(s, i, mode).1, j, p); }
  }

  lemma NoSemicolonInside(s: string, i: nat, mode: Mode, p: nat)
    requires i < |s| && Visit(s, 0, Plain, i) == Some(mode) && !(mode == Plain && s[i] == ';')
      && i <= p < Step(s, i, mode).0
    ensures !PlainSemicolon(s, p)
  {
    VisitComposes(s, 0, Plain, i, p);
    hide Step;
  }

  lemma VisitNext(s: string, i: nat, mode: Mode)
    requires i < |s| && Visit(s, 0, Plain, i) == Some(mode)
    ensures Visit(s, 0, Plain, Step(s, i, mode).0) == Some(Step(s, i, mode).1)
  {
    hide Step;
    VisitComposes(s, 0, Plain, i, Step(s, i, mode).0);
  }

  lemma OnePiece(s: string, start: nat, end: nat)
    requires start <= end <= |s| && forall p :: start <= p < end ==> !PlainSemicolon(s, p)
    ensures |Piece(s[start..end])| == |PieceSlice(s, start, end)| <= 1
    ensures Piece(s[start..end]) == [] ==> forall p :: start <= p < end ==> IsSpace(s[p])
    ensures Piece(s[start..end]) != [] ==>
      var r := PieceSlice(s, start, end)[0];
      && start <= r.from < r.to <= end && Piece(s[start..end])[0] == s[r.from..r.to]
      && forall p :: start <= p < end && !(r.from <= p < r.to) ==> IsSpace(s[p])
  {
    hide PlainSemicolon, Strip, IsSpace, Trimmed;
    TrimmedIs(s, start, end);
  }

  lemma PieceTrimmed(t: string, pieces: seq<string>)
    ensures AllTrimmed(Piece(t))
    ensures AllTrimmed(pieces) ==> AllTrimmed(Piece(t) + pieces)
  {
    hide Strip;
    StripTwice(t);
  }

  lemma OrderJoins(s: string, start: nat, mid: nat, a: seq<Slice>, b: seq<Slice>, p: seq<string>, q: seq<string>)
    requires start <= mid && OrderedSlices(s, start, a, p) && OrderedSlices(s, mid, b, q) && |a| <= 1
      && (a != [] ==> a[0].to <= mid)
    ensures OrderedSlices(s, start, a + b, p + q)
  {
    var all, pieces := a + b, p + q;
    assert |all| == |pieces|;
    assert forall k :: |a| <= k < |all| ==> all[k] == b[k - |a|] && pieces[k] == q[k - |a|];
  }

  lemma PrependOrder(s: string, start: nat, end: nat, slices: seq<Slice>, pieces: seq<string>)
    requires start <= end < |s| && (forall p :: start <= p < end ==> !PlainSemicolon(s, p))
    requires OrderedSlices(s, end + 1, slices, pieces)
    ensures OrderedSlices(s, start, PieceSlice(s, start, end) + slices, Piece(s[start..end]) + pieces)
  {
    hide PlainSemicolon, Strip, IsSpace, Piece, PieceSlice;
    PieceIsOrdered(s, start, end);
    OnePiece(s, start, end);
    hide OrderedSlices;
    OrderJoins(s, start, end + 1, PieceSlice(s, start, end), slices, Piece(s[start..end]), pieces);
  }

  lemma PrependGaps(s: string, start: nat, end: nat, slices: seq<Slice>, pieces: seq<string>)
    requires start <= end < |s| && (forall p :: start <= p < end ==> !PlainSemicolon(s, p)) && PlainSemicolon(s, end)
    requires OrderedSlices(s, end + 1, slices, pieces) && PlainGaps(s, end + 1, slices)
    ensures PlainGaps(s, start, PieceSlice(s, start, end) + slices)
  {
    hide Strip, IsSpace, Piece, PieceSlice, Covered, OrderedSlices, PlainSemicolon;
    OnePiece(s, start, end);
    var head := PieceSlice(s, start, end);
    forall p | start <= p < |s|
      ensures if Covered(head + slices, p) then !PlainSemicolon(s, p) else IsSpace(s[p]) || PlainSemicolon(s, p)
    {
      CoveredByEither(head, slices, p);
      CoveredByOne(head, p);
      if p <= end { CoveredFrom(s, end + 1, slices, pieces, p); }
    }
  }

  lemma PrependSeparated(s: string, start: nat, end: nat, slices: seq<Slice>, pieces: seq<string>)
    requires start <= end < |s| && (forall p :: start <= p < end ==> !PlainSemicolon(s, p)) && PlainSemicolon(s, end)
    requires OrderedSlices(s, end + 1, slices, pieces) && Separated(s, slices)
    ensures Separated(s, PieceSlice(s, start, end) + slices)
  {
    hide Strip, IsSpace, Piece, PieceSlice, PlainSemicolon;
    OnePiece(s, start, end);
    var head := PieceSlice(s, start, end);
    var all := head + slices;
    forall k | 0 <= k < |all| - 1 ensures SemicolonIn(s, all[k].to, all[k + 1].from) {
      if k < |head| {
        assert all[k].to <= end < all[k + 1].from;
      } else {
        assert all[k] == slices[k - |head|] && all[k + 1] == slices[k - |head| + 1];
      }
    }
  }

  lemma CoveredByEither(a: seq<Slice>, b: seq<Slice>, p: nat)
    ensures Covered(a + b, p) <==> Covered(a, p) || Covered(b, p)
  {
    if k :| 0 <= k < |a| && a[k].from <= p < a[k].to { assert (a + b)[k] == a[k]; }
    if k :| 0 <= k < |b| && b[k].from <= p < b[k].to { assert (a + b)[|a| + k] == b[k]; }
  }

  lemma CoveredFrom(s: string, start: nat, slices: seq<Slice>, pieces: seq<string>, p: nat)
    requires OrderedSlices(s, start, slices, pieces) && p < start
    ensures !Covered(slices, p)
  {
  }

  lemma CoveredByOne(head: seq<Slice>, p: nat)
    requires |head| <= 1
    ensures Covered(head, p) <==> head != [] && head[0].from <= p < head[0].to
  {
    if head != [] && head[0].from <= p < head[0].to { assert 0 <= 0 < |head|; }
  }

  lemma LastGaps(s: string, start: nat)
    requires start <= |s| && forall p :: start <= p < |s| ==> !PlainSemicolon(s, p)
    ensures PlainGaps(s, start, PieceSlice(s, start, |s|))
  {
    hide PlainSemicolon, Strip, IsSpace, Piece, PieceSlice, Covered;
    OnePiece(s, start, |s|);
    var head := PieceSlice(s, start, |s|);
    forall p | start <= p < |s| ensures Covered(head, p) <==> head != [] && head[0].from <= p < head[0].to {
      CoveredByOne(head, p);
    }
  }

  lemma OneIsSeparated(s: string, slices: seq<Slice>)
    requires |slices| <= 1
    ensures Separated(s, slices)
  {
  }

  lemma PieceIsOrdered(s: string, start: nat, end: nat)
    requires start <= end <= |s| && forall p :: start <= p < end ==> !PlainSemicolon(s, p)
    ensures OrderedSlices(s, start, PieceSlice(s, start, end), Piece(s[start..end])) && |PieceSlice(s, start, end)| <= 1
  {
    hide PlainSemicolon, Strip, IsSpace, Piece, PieceSlice;
    OnePiece(s, start, end);
  }

  lemma {:induction false} SplitCuts(s: string, start: nat, i: nat, mode: Mode)
    requires start <= i <= |s| && Visit(s, 0, Plain, i) == Some(mode)
    requires forall p :: start <= p < i ==> !PlainSemicolon(s, p)
    ensures CutsOf(s, start, Slices(s, start, i, mode), Split(s, start, i, mode))
    decreases |s| - i
  {
    hide Step, Visit, PieceSlice, Piece, OrderedSlices, PlainGaps, Separated, AllTrimmed;
    if i == |s| {
      assert s[start..] == s[start..|s|];
      PieceIsOrdered(s, start, |s|);
      LastGaps(s, start);
      OneIsSeparated(s, PieceSlice(s, start, |s|));
      PieceTrimmed(s[start..], []);
    } else if mode == Plain && s[i] == ';' {
      VisitSemicolon(s, i);
      SplitCuts(s, i + 1, i + 1, Plain);
      PrependOrder(s, start, i, Slices(s, i + 1, i + 1, Plain), Split(s, i + 1, i + 1, Plain));
      PrependGaps(s, start, i, Slices(s, i + 1, i + 1, Plain), Split(s, i + 1, i + 1, Plain));
      PieceTrimmed(s[start..i], Split(s, i + 1, i + 1, Plain));
      PrependSeparated(s, start, i, Slices(s, i + 1, i + 1, Plain), Split(s, i + 1, i + 1, Plain));
    } else {
      VisitNext(s, i, mode);
      forall p | start <= p < Step(s, i, mode).0 ensures !PlainSemicolon(s, p) {
        if p >= i { NoSemicolonInside(s, i, mode, p); }
      }
      SplitCuts(s, start, Step(s, i, mode).0, Step(s, i, mode).1);
    }
  }

  lemma VisitSemicolon(s: string, i: nat)
    requires i < |s| && s[i] == ';' && Visit(s, 0, Plain, i) == Some(Plain)
    ensures PlainSemicolon(s, i) && Visit(s, 0, Plain, i + 1) == Some(Plain)
  {
    hide Visit, Step;
    VisitNext(s, i, Plain);
    StepSemicolon(s, i);
  }

  lemma AtStarts(s: string, i: nat, pattern: string)
    requires i < |s| && pattern != "" && s[i] != pattern[0]
    ensures !At(s, i, pattern)
  {
    assert i + |pattern| <= |s| ==> s[i..i + |pattern|][0] == s[i];
  }

  lemma StepSemicolon(s: string, i: nat)
    requires i < |s| && s[i] == ';'
    ensures Step(s, i, Plain) == (i + 1, Plain)
  {
    AtStarts(s, i, "--");
    AtStarts(s, i, "/*");
    hide At;
  }

  /**
    For any script the statements are its ordered, trimmed, non-empty slices.  A
    plain semicolon separates each from the next, none lies inside one, and
    outside them are only whitespace and plain semicolons.
  */
  lemma StatementsAreSlices(s: string)
    ensures CutsOf(s, 0, Slices(s, 0, 0, Plain), Split(s, 0, 0, Plain))
  {
    SplitCuts(s, 0, 0, Plain);
  }

  // ------------------------------------------------------------ there is no other way to cut

  /** The ends of a slice are neither whitespace nor plain semicolons. */
  lemma EndsHold(s: string, start: nat, slices: seq<Slice>, pieces: seq<string>, k: nat)
    requires CutsOf(s, start, slices, pieces) && k < |slices|
    ensures var r := slices[k];
      && start <= r.from < r.to <= |s|
      && !IsSpace(s[r.from]) && !PlainSemicolon(s, r.from) && !IsSpace(s[r.to - 1]) && !PlainSemicolon(s, r.to - 1)
  {
    hide IsSpace, PlainSemicolon, Strip, Separated;
    var r := slices[k];
    assert pieces[k] in pieces && Strip(pieces[k]) == pieces[k];
    assert pieces[k][0] == s[r.from] && pieces[k][|pieces[k]| - 1] == s[r.to - 1];
    assert Covered(slices, r.from) && Covered(slices, r.to - 1);
  }

  /** Text that must be covered is, and the first slice begins no later. */
  lemma CoveredByCuts(s: string, start: nat, slices: seq<Slice>, pieces: seq<string>, p: nat) returns (k: nat)
    requires CutsOf(s, start, slices, pieces) && start <= p < |s| && !IsSpace(s[p]) && !PlainSemicolon(s, p)
    ensures k < |slices| && slices[k].from <= p < slices[k].to && slices[0].from <= p
  {
    hide IsSpace, PlainSemicolon, Strip, Separated, AllTrimmed;
    assert Covered(slices, p);
    k :| 0 <= k < |slices| && slices[k].from <= p < slices[k].to;
    assert k > 0 ==> slices[0].to <= slices[k].from;
  }

  /** A plain semicolon ends the first slice before any later one begins. */
  lemma SemicolonBehindFirst(s: string, start: nat, slices: seq<Slice>, pieces: seq<string>, k: nat) returns (x: nat)
    requires CutsOf(s, start, slices, pieces) && 0 < k < |slices|
    ensures slices[0].from < slices[0].to <= x < slices[k].from && PlainSemicolon(s, x)
  {
    hide IsSpace, PlainSemicolon, Strip, AllTrimmed, PlainGaps;
    assert SemicolonIn(s, slices[0].to, slices[0 + 1].from);
    x :| slices[0].to <= x < slices[1].from && PlainSemicolon(s, x);
    assert k > 1 ==> slices[1].to <= slices[k].from;
  }

  lemma NoSemicolonIn(s: string, start: nat, slices: seq<Slice>, pieces: seq<string>, x: nat)
    requires CutsOf(s, start, slices, pieces) && slices != [] && PlainSemicolon(s, x)
    ensures !(slices[0].from <= x < slices[0].to)
  {
    hide IsSpace, PlainSemicolon, Strip, AllTrimmed, Separated;
    assert slices[0].from <= x < slices[0].to ==> Covered(slices, x);
  }

  /** Where two cuts begin a slice together, neither ends it first. */
  lemma FirstEndsNoLater(s: string, start: nat, a: seq<Slice>, p: seq<string>, b: seq<Slice>, q: seq<string>)
    requires CutsOf(s, start, a, p) && CutsOf(s, start, b, q) && a != [] && b != [] && a[0].from == b[0].from
    ensures a[0].to <= b[0].to
  {
    hide CutsOf, IsSpace, PlainSemicolon;
    EndsHold(s, start, a, p, 0);
    var k := CoveredByCuts(s, start, b, q, a[0].to - 1);
    if k > 0 {
      var x := SemicolonBehindFirst(s, start, b, q, k);
      NoSemicolonIn(s, start, a, p, x);
    }
  }

  lemma FirstsAgree(s: string, start: nat, a: seq<Slice>, p: seq<string>, b: seq<Slice>, q: seq<string>)
    requires CutsOf(s, start, a, p) && CutsOf(s, start, b, q)
    ensures a != [] ==> b != [] && a[0].from >= b[0].from
  {
    hide CutsOf, IsSpace, PlainSemicolon;
    if a != [] {
      EndsHold(s, start, a, p, 0);
      var k := CoveredByCuts(s, start, b, q, a[0].from);
    }
  }

  lemma RestIsOrdered(s: string, start: nat, slices: seq<Slice>, pieces: seq<string>)
    requires OrderedSlices(s, start, slices, pieces) && slices != []
    ensures slices[0].from < slices[0].to <= |s| && pieces != [] && pieces[0] == s[slices[0].from..slices[0].to]
    ensures OrderedSlices(s, slices[0].to, slices[1..], pieces[1..])
  {
  }

  lemma RestHasGaps(s: string, start: nat, slices: seq<Slice>)
    requires PlainGaps(s, start, slices) && slices != [] && start <= slices[0].to
    ensures PlainGaps(s, slices[0].to, slices[1..])
  {
    hide IsSpace, PlainSemicolon, Covered;
    forall x | slices[0].to <= x < |s| ensures Covered(slices, x) <==> Covered(slices[1..], x) {
      assert slices == slices[..1] + slices[1..];
      CoveredByEither(slices[..1], slices[1..], x);
      CoveredByOne(slices[..1], x);
    }
  }

  lemma RestIsSeparated(s: string, slices: seq<Slice>)
    requires Separated(s, slices) && slices != []
    ensures Separated(s, slices[1..])
  {
    hide SemicolonIn;
    var rest := slices[1..];
    forall k | 0 <= k < |rest| - 1 ensures SemicolonIn(s, rest[k].to, rest[k + 1].from) {
      assert rest[k] == slices[k + 1] && rest[k + 1] == slices[k + 1 + 1];
    }
  }

  lemma RestIsCut(s: string, start: nat, slices: seq<Slice>, pieces: seq<string>)
    requires CutsOf(s, start, slices, pieces) && slices != []
    ensures slices[0].from < slices[0].to <= |s| && pieces != [] && pieces[0] == s[slices[0].from..slices[0].to]
    ensures CutsOf(s, slices[0].to, slices[1..], pieces[1..])
  {
    assert start <= slices[0].from;
    RestIsOrdered(s, start, slices, pieces);
    RestHasGaps(s, start, slices);
    RestIsSeparated(s, slices);
    hide OrderedSlices, PlainGaps, Separated, Strip;
  }

  lemma SameLength(s: string, start: nat, slices: seq<Slice>, pieces: seq<string>)
    requires CutsOf(s, start, slices, pieces)
    ensures |pieces| == |slices|
  {
  }

  /** The conditions on cuts leave no choice, so the splitter is the only way to meet them. */
  lemma {:induction false} CutsAreUnique(
    s: string, start: nat, a: seq<Slice>, p: seq<string>, b: seq<Slice>, q: seq<string>)
    requires CutsOf(s, start, a, p) && CutsOf(s, start, b, q)
    ensures a == b && p == q
    decreases |a|
  {
    hide CutsOf;
    FirstsAgree(s, start, a, p, b, q);
    FirstsAgree(s, start, b, q, a, p);
    SameLength(s, start, a, p);
    SameLength(s, start, b, q);
    if a != [] {
      FirstEndsNoLater(s, start, a, p, b, q);
      FirstEndsNoLater(s, start, b, q, a, p);
      RestIsCut(s, start, a, p);
      RestIsCut(s, start, b, q);
      CutsAreUnique(s, a[0].to, a[1..], p[1..], b[1..], q[1..]);
      assert a == [a[0]] + a[1..] && b == [b[0]] + b[1..];
      assert p == [p[0]] + p[1..] && q == [q[0]] + q[1..];
    }
  }

  /** A list of statements is the split of a script if and only if it cuts the script. */
  lemma SplitIsTheCut(s: string, pieces: seq<string>)
    ensures Split(s, 0, 0, Plain) == pieces <==> exists slices :: CutsOf(s, 0, slices, pieces)
  {
    hide CutsOf, Split, Slices;
    StatementsAreSlices(s);
    if slices :| CutsOf(s, 0, slices, pieces) {
      CutsAreUnique(s, 0, slices, pieces, Slices(s, 0, 0, Plain), Split(s, 0, 0, Plain));
    }
  }
}
