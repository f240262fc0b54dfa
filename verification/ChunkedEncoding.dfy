/** What is a chunked body: an encoder, written out over the bytes, against
    which decoding is exact. Every encoding is read to its data and its end,
    and nothing else is. One way to end a body is the code's alone, a long
    trailer line of an unlucky length, and that is given exactly too. */
module ChunkedEncoding {
  import opened Arithmetic
  import opened Common
  import opened Bytes
  import opened Chunked
  import opened ChunkedTheorems

  function Eol(crlf: bool): Bytes { if crlf then [13, 10] else [10] }

  // ----- Lines -----

  // A line: its only line feed ends it.
  predicate IsLine(line: Bytes) {
    line != [] && line[|line| - 1] == 10 && forall k | 0 <= k < |line| - 1 :: line[k] != 10
  }

  lemma {:induction false} IndexOfIs(w: Bytes, b: Byte, i: nat)
    requires i < |w| && w[i] == b && forall k | 0 <= k < i :: w[k] != b
    ensures IndexOf(w, b) == i
  {
    if i > 0 {
      IndexOfIs(w[1..], b, i - 1);
    }
  }

  lemma {:induction false} IndexOfNone(w: Bytes, b: Byte)
    requires b !in w
    ensures IndexOf(w, b) == |w|
  {
    if w != [] {
      IndexOfNone(w[1..], b);
    }
  }

  lemma {:induction false} LineRead(line: Bytes, rest: Bytes, reset: bool)
    requires IsLine(line) && |line| <= 1024
    ensures ReadLine(Wire(line + rest, reset)) == Ok((line, Wire(rest, reset)))
  {
    var w := line + rest;
    var window := w[..Min(1024, |w|)];
    var i := |line| - 1;
    assert forall k | 0 <= k <= i :: window[k] == line[k];
    IndexOfIs(window, LF, i);
    assert w[..|line|] == line && w[|line|..] == rest;
  }

  lemma {:induction false} PieceRead(piece: Bytes, rest: Bytes, reset: bool)
    requires LF !in piece && |piece| == 1024
    ensures ReadLine(Wire(piece + rest, reset)) == Ok((piece, Wire(rest, reset)))
  {
    var w := piece + rest;
    assert w[..1024] == piece && w[1024..] == rest;
    IndexOfNone(piece, LF);
  }

  // ----- Size lines -----

  // A hexadecimal digit, in either case.
  datatype Hex = Hex(value: nat, upper: bool)

  function Glyph(h: Hex): Byte
    requires h.value < 16
  {
    (if h.value < 10 then 48 + h.value else (if h.upper then 55 else 87) + h.value) as Byte
  }

  predicate GoodDigits(digits: seq<Hex>) {
    forall k | 0 <= k < |digits| :: digits[k].value < 16
  }

  function Glyphs(digits: seq<Hex>): (b: Bytes)
    requires GoodDigits(digits)
    ensures |b| == |digits| && forall k | 0 <= k < |b| :: b[k] == Glyph(digits[k])
  {
    seq(|digits|, k requires 0 <= k < |digits| => Glyph(digits[k]))
  }

  function Value(digits: seq<Hex>): nat {
    if digits == [] then 0 else 16 * Value(digits[..|digits| - 1]) + digits[|digits| - 1].value
  }

  // Blanks, digits, blanks, perhaps an extension, any carriage returns, and a line feed.
  datatype SizeLine = SizeLine(before: Bytes, digits: seq<Hex>, after: Bytes, extension: Option<Bytes>, cr: nat)

  predicate AllPadding(b: Bytes) {
    forall k | 0 <= k < |b| :: b[k] == 32 || b[k] == 9
  }

  function Field(l: SizeLine): Bytes
    requires GoodDigits(l.digits)
  {
    l.before + Glyphs(l.digits) + l.after
  }

  function Tail(l: SizeLine): Bytes {
    if l.extension.Some? then [59] + l.extension.value else []
  }

  function LineEnd(cr: nat): (b: Bytes)
    ensures |b| == cr + 1 && b[cr] == 10 && forall k | 0 <= k < cr :: b[k] == 13
  {
    seq(cr, _ => 13) + [10]
  }

  function Line(l: SizeLine): Bytes
    requires GoodDigits(l.digits)
  {
    Field(l) + Tail(l) + LineEnd(l.cr)
  }

  predicate GoodSizeLine(l: SizeLine) {
    && AllPadding(l.before) && AllPadding(l.after)
    && 1 <= |l.digits| <= 15 && GoodDigits(l.digits)
    && (l.extension.Some? ==> 10 !in l.extension.value)
    && |Line(l)| <= 1024
  }

  lemma {:induction false} DigitsAreHex(digits: seq<Hex>)
    requires GoodDigits(digits)
    ensures AllHex(Glyphs(digits)) && Number(Glyphs(digits)) == Value(digits)
    decreases |digits|
  {
    var b := Glyphs(digits);
    assert forall k | 0 <= k < |b| :: IsHex(b[k]);
    if digits != [] {
      var before := digits[..|digits| - 1];
      DigitsAreHex(before);
      assert b[..|b| - 1] == Glyphs(before);
    }
  }

  // The digits that a hexadecimal number was written with.
  function Digits(b: Bytes): (digits: seq<Hex>)
    requires AllHex(b)
    ensures GoodDigits(digits) && Glyphs(digits) == b
  {
    var digits := seq(|b|, k requires 0 <= k < |b| => Hex(Digit(b[k]), b[k] <= 70));
    assert GoodDigits(digits);
    assert forall k | 0 <= k < |b| :: Glyphs(digits)[k] == b[k];
    digits
  }

  lemma {:induction false} TrimsLeft(before: Bytes, b: Bytes)
    requires AllPadding(before) && b != [] && !IsPadding(b[0])
    ensures TrimLeft(before + b) == b
    decreases |before|
  {
    if before == [] {
      assert before + b == b;
    } else {
      assert (before + b)[1..] == before[1..] + b;
      TrimsLeft(before[1..], b);
    }
  }

  lemma {:induction false} TrimsRight(b: Bytes, after: Bytes)
    requires AllPadding(after) && b != [] && !IsPadding(b[|b| - 1])
    ensures TrimRight(b + after) == b
    decreases |after|
  {
    if after == [] {
      assert b + after == b;
    } else {
      assert (b + after)[..|b + after| - 1] == b + after[..|after| - 1];
      TrimsRight(b, after[..|after| - 1]);
    }
  }

  // Only the line end is dropped, never anything before a byte that is not part of one.
  lemma {:induction false} DropsEnd(b: Bytes, end: Bytes)
    requires b != [] && b[|b| - 1] != CR && b[|b| - 1] != LF
    ensures b <= DropLineEnd(b + end)
    ensures (forall k | 0 <= k < |end| :: end[k] == CR || end[k] == LF) ==> DropLineEnd(b + end) == b
    decreases |end|
  {
    if end == [] {
      assert b + end == b;
    } else {
      assert (b + end)[..|b + end| - 1] == b + end[..|end| - 1];
      DropsEnd(b, end[..|end| - 1]);
    }
  }

  // The text of a line up to its extension.
  function Before(line: Bytes): Bytes {
    var text := DropLineEnd(line);
    text[..IndexOf(text, SEMICOLON)]
  }

  lemma {:induction false} CutAtExtension(f: Bytes, rest: Bytes)
    requires 59 !in f
    ensures Before(f + [59] + rest) == f
  {
    var start := f + [59];
    var text := DropLineEnd(start + rest);
    DropsEnd(start, rest);
    assert text[..|f|] == start[..|f|] == f && text[|f|] == start[|f|];
    IndexOfIs(text, SEMICOLON, |f|);
  }

  lemma {:induction false} CutAtEnd(f: Bytes, cr: nat)
    requires f != [] && f[|f| - 1] != CR && f[|f| - 1] != LF && 59 !in f
    ensures Before(f + LineEnd(cr)) == f
  {
    DropsEnd(f, LineEnd(cr));
    IndexOfNone(f, SEMICOLON);
    assert f[..|f|] == f;
  }

  // The field of a size line is of blanks and digits.
  lemma {:induction false} FieldIsPlain(l: SizeLine)
    requires GoodSizeLine(l)
    ensures var f := Field(l); f != [] && forall k | 0 <= k < |f| :: IsPadding(f[k]) || IsHex(f[k])
  {
    DigitsAreHex(l.digits);
  }

  lemma {:induction false} FieldIsFound(l: SizeLine)
    requires GoodSizeLine(l)
    ensures Before(Line(l)) == Field(l)
  {
    var f := Field(l);
    FieldIsPlain(l);
    if l.extension.Some? {
      assert Line(l) == f + [59] + (l.extension.value + LineEnd(l.cr));
      CutAtExtension(f, l.extension.value + LineEnd(l.cr));
    } else {
      assert Line(l) == f + LineEnd(l.cr);
      CutAtEnd(f, l.cr);
    }
  }

  lemma {:induction false} SizeLineIsLine(l: SizeLine)
    requires GoodSizeLine(l)
    ensures IsLine(Line(l))
  {
    var line, f := Line(l), Field(l);
    FieldIsPlain(l);
    assert forall k | 0 <= k < |f| :: line[k] == f[k];
    assert forall k | 0 <= k < |Tail(l)| :: line[|f| + k] == Tail(l)[k] != 10;
  }

  lemma {:induction false} SizeIsRead(l: SizeLine)
    requires GoodSizeLine(l)
    ensures SizeOf(Line(l)) == Some(Value(l.digits)) && IsLine(Line(l))
  {
    SizeLineIsLine(l);
    FieldIsFound(l);
    DigitsAreHex(l.digits);
    var d := Glyphs(l.digits);
    assert Field(l) == l.before + (d + l.after);
    TrimsLeft(l.before, d + l.after);
    TrimsRight(d, l.after);
  }

  // ----- Nothing else is a size line -----

  lemma {:induction false} EndDropped(b: Bytes)
    ensures var text := DropLineEnd(b); forall k | |text| <= k < |b| :: b[k] == 13 || b[k] == 10
    decreases |b|
  {
    if b != [] && (b[|b| - 1] == CR || b[|b| - 1] == LF) {
      EndDropped(b[..|b| - 1]);
    }
  }

  lemma {:induction false} MorePadding(a: Bytes, b: Byte)
    requires AllPadding(a) && IsPadding(b)
    ensures AllPadding([b] + a) && AllPadding(a + [b])
  {
  }

  lemma {:induction false} LeftTrimmed(b: Bytes) returns (before: Bytes)
    ensures AllPadding(before) && b == before + TrimLeft(b)
    decreases |b|
  {
    if b != [] && IsPadding(b[0]) {
      var rest := LeftTrimmed(b[1..]);
      before := [b[0]] + rest;
      MorePadding(rest, b[0]);
      hide AllPadding, IsPadding;
      assert b == [b[0]] + b[1..] == [b[0]] + (rest + TrimLeft(b)) == before + TrimLeft(b);
    } else {
      before := [];
    }
  }

  lemma {:induction false} RightTrimmed(b: Bytes) returns (after: Bytes)
    ensures AllPadding(after) && b == TrimRight(b) + after
    decreases |b|
  {
    if b != [] && IsPadding(b[|b| - 1]) {
      var rest := RightTrimmed(b[..|b| - 1]);
      after := rest + [b[|b| - 1]];
      MorePadding(rest, b[|b| - 1]);
      hide AllPadding, IsPadding;
      assert b == b[..|b| - 1] + [b[|b| - 1]] == (TrimRight(b) + rest) + [b[|b| - 1]] == TrimRight(b) + after;
    } else {
      after := [];
    }
  }

  // What is dropped at the end of a line is carriage returns and its line feed.
  lemma {:induction false} EndDivides(line: Bytes) returns (cr: nat)
    requires IsLine(line)
    ensures line == DropLineEnd(line) + LineEnd(cr)
  {
    var text := DropLineEnd(line);
    EndDropped(line);
    assert text == DropLineEnd(line[..|line| - 1]);
    var end := line[|text|..];
    cr := |end| - 1;
    assert forall k | 0 <= k < |end| :: end[k] == line[|text| + k];
    assert end == LineEnd(cr);
  }

  // The text of a line divides at its extension.
  lemma {:induction false} TextDivides(text: Bytes) returns (extension: Option<Bytes>)
    ensures text == text[..IndexOf(text, SEMICOLON)] + if extension.Some? then [59] + extension.value else []
    ensures extension.Some? && 10 !in text ==> 10 !in extension.value
  {
    var i := IndexOf(text, SEMICOLON);
    if i < |text| {
      extension := Some(text[i + 1..]);
      assert text == text[..i] + ([59] + text[i + 1..]);
    } else {
      extension := None;
      assert text[..i] == text;
    }
  }

  lemma {:induction false} LineDivides(line: Bytes) returns (extension: Option<Bytes>, cr: nat)
    requires IsLine(line)
    ensures line == Before(line) + (if extension.Some? then [59] + extension.value else []) + LineEnd(cr)
    ensures extension.Some? ==> 10 !in extension.value
  {
    var text := DropLineEnd(line);
    cr := EndDivides(line);
    assert forall k | 0 <= k < |text| :: text[k] == line[k];
    hide DropLineEnd;
    extension := TextDivides(text);
  }

  /** A line is taken for a size only if it is one: blanks, one to fifteen
      hexadecimal digits of that value, blanks, perhaps an extension, and a
      line end. */
  lemma {:induction false} OnlySizeLines(line: Bytes) returns (l: SizeLine)
    requires IsLine(line) && |line| <= 1024 && SizeOf(line).Some?
    ensures GoodSizeLine(l) && Line(l) == line && Value(l.digits) == SizeOf(line).value
  {
    var f := Before(line);
    var before := LeftTrimmed(f);
    var after := RightTrimmed(TrimLeft(f));
    var b := TrimRight(TrimLeft(f));
    var extension, n := LineDivides(line);
    l := SizeLine(before, Digits(b), after, extension, n);
    assert Field(l) == before + b + after == f;
    DigitsAreHex(l.digits);
  }

  // Every size can be written down.
  function Written(n: nat): (d: seq<Hex>)
    ensures d != [] && GoodDigits(d) && Value(d) == n
  {
    if n < 16 then
      var d := [Hex(n, false)];
      assert d[..0] == [];
      d
    else
      var d := Written(n / 16) + [Hex(n % 16, false)];
      assert d[..|d| - 1] == Written(n / 16);
      d
  }

  // ----- Trailers -----

  /** A trailer line whose last piece of at most 1024 bytes looks like the
      blank line that ends the body. */
  predicate Misread(line: Bytes) {
    && |line| > 1024
    && (|line| % 1024 == 1 || (|line| % 1024 == 2 && line[|line| - 2] == 13))
  }

  lemma {:induction false} TailIsLine(line: Bytes)
    requires IsLine(line) && |line| > 1024
    ensures IsLine(line[1024..])
  {
    var tail := line[1024..];
    assert tail[..|tail| - 1] == line[..|line| - 1][1024..];
  }

  lemma {:induction false} MisreadTail(line: Bytes)
    requires IsLine(line) && |line| > 1024
    ensures var tail := line[1024..];
      && IsLine(tail)
      && (Misread(line) <==> IsBlank(tail) || Misread(tail))
  {
    var tail := line[1024..];
    TailIsLine(line);
    assert |tail| == 1 ==> tail == [tail[0]];
    assert |tail| == 2 ==> tail == [tail[0], tail[1]];
  }

  // The first 1024 bytes of a longer line are charged, and skipped.
  lemma {:induction false} PieceSkipped(line: Bytes, rest: Bytes, reset: bool, budget: nat)
    requires IsLine(line) && |line| > 1024
    ensures var r := SkipTrailers(Wire(line + rest, reset), budget);
      if 1024 > budget then r.0 == Err(Refused(400))
      else r == SkipTrailers(Wire(line[1024..] + rest, reset), budget - 1024)
  {
    var piece, tail := line[..1024], line[1024..];
    assert line + rest == piece + (tail + rest);
    assert piece == line[..|line| - 1][..1024];
    PieceRead(piece, tail + rest, reset);
  }

  // What a line costs: all of it, but for the last piece of one that is misread.
  function Charge(line: Bytes): nat {
    if Misread(line) then |line| - |line| % 1024 else |line|
  }

  // A line is skipped whole, or misread, or too long for the budget.
  ghost predicate Skips(line: Bytes, rest: Wire, budget: nat, r: (Result<(), Error>, Wire)) {
    if Charge(line) > budget then r.0 == Err(Refused(400))
    else if Misread(line) then r == (Ok(()), rest)
    else r == SkipTrailers(rest, budget - |line|)
  }

  lemma {:induction false} ShortTrailer(line: Bytes, rest: Bytes, reset: bool, budget: nat)
    requires IsLine(line) && !IsBlank(line) && |line| <= 1024
    ensures Skips(line, Wire(rest, reset), budget, SkipTrailers(Wire(line + rest, reset), budget))
  {
    var w, after := Wire(line + rest, reset), Wire(rest, reset);
    LineRead(line, rest, reset);
    if budget < |line| {
      assert SkipTrailers(w, budget) == (Err(Refused(BAD_REQUEST)), after);
    } else {
      assert SkipTrailers(w, budget) == SkipTrailers(after, budget - |line|);
    }
  }

  lemma {:induction false} BlankTail(tail: Bytes, rest: Bytes, reset: bool, budget: nat)
    requires IsBlank(tail)
    ensures SkipTrailers(Wire(tail + rest, reset), budget) == (Ok(()), Wire(rest, reset))
  {
    LineRead(tail, rest, reset);
  }

  lemma {:induction false} LongerSkips(line: Bytes, tail: Bytes, rest: Wire, budget: nat, r: (Result<(), Error>, Wire))
    requires |line| == 1024 + |tail| && 1024 <= budget
    requires Skips(tail, rest, budget - 1024, r) && (Misread(line) <==> Misread(tail))
    ensures Skips(line, rest, budget, r)
  {
  }

  lemma {:induction false} LongTrailer(line: Bytes, rest: Bytes, reset: bool, budget: nat)
    requires IsLine(line) && |line| > 1024 && 1024 <= budget && !IsBlank(line[1024..])
    requires var tail := line[1024..];
      Skips(tail, Wire(rest, reset), budget - 1024, SkipTrailers(Wire(tail + rest, reset), budget - 1024))
    ensures Skips(line, Wire(rest, reset), budget, SkipTrailers(Wire(line + rest, reset), budget))
  {
    var tail := line[1024..];
    PieceSkipped(line, rest, reset, budget);
    MisreadTail(line);
    LongerSkips(line, tail, Wire(rest, reset), budget, SkipTrailers(Wire(tail + rest, reset), budget - 1024));
  }

  lemma {:induction false} UnluckyTrailer(line: Bytes, rest: Bytes, reset: bool, budget: nat)
    requires IsLine(line) && |line| > 1024 && (IsBlank(line[1024..]) || 1024 > budget)
    ensures Skips(line, Wire(rest, reset), budget, SkipTrailers(Wire(line + rest, reset), budget))
  {
    var tail := line[1024..];
    PieceSkipped(line, rest, reset, budget);
    MisreadTail(line);
    if 1024 <= budget {
      BlankTail(tail, rest, reset, budget - 1024);
    }
  }

  lemma {:induction false} TrailerRead(line: Bytes, rest: Bytes, reset: bool, budget: nat)
    requires IsLine(line) && !IsBlank(line)
    ensures Skips(line, Wire(rest, reset), budget, SkipTrailers(Wire(line + rest, reset), budget))
    decreases |line|
  {
    hide SkipTrailers, Skips, ReadLine;
    if |line| <= 1024 {
      ShortTrailer(line, rest, reset, budget);
    } else if IsBlank(line[1024..]) || 1024 > budget {
      UnluckyTrailer(line, rest, reset, budget);
    } else {
      TailIsLine(line);
      TrailerRead(line[1024..], rest, reset, budget - 1024);
      LongTrailer(line, rest, reset, budget);
    }
  }

  function Lines(lines: seq<Bytes>): Bytes {
    if lines == [] then [] else lines[0] + Lines(lines[1..])
  }

  // Lines, none of them blank.
  predicate GoodTrailers(lines: seq<Bytes>) {
    forall k | 0 <= k < |lines| :: IsLine(lines[k]) && lines[k] != [10] && lines[k] != [13, 10]
  }

  predicate NoneMisread(lines: seq<Bytes>) {
    forall k | 0 <= k < |lines| :: !Misread(lines[k])
  }

  // A reader that did not take these lines whole did not come to their end.
  lemma {:induction false} TrailersExact(lines: seq<Bytes>, crlf: bool, rest: Bytes, reset: bool, budget: nat)
    requires GoodTrailers(lines)
    ensures SkipTrailers(Wire(Lines(lines) + Eol(crlf) + rest, reset), budget) == (Ok(()), Wire(rest, reset))
       <==> NoneMisread(lines) && |Lines(lines)| <= budget
    decreases |lines|
  {
    hide SkipTrailers, ReadLine, Misread;
    if lines == [] {
      assert Lines(lines) + Eol(crlf) + rest == Eol(crlf) + rest;
      BlankTail(Eol(crlf), rest, reset, budget);
    } else {
      var line, others := lines[0], Lines(lines[1..]) + Eol(crlf) + rest;
      assert Lines(lines) + Eol(crlf) + rest == line + others;
      TrailerRead(line, others, reset, budget);
      assert |others| > |rest|;
      if !Misread(line) {
        assert NoneMisread(lines) <==> NoneMisread(lines[1..]);
        if |line| <= budget {
          TrailersExact(lines[1..], crlf, rest, reset, budget - |line|);
        }
      }
    }
  }

  /** A trailer line of 1025 bytes ends the body early: the reader takes its
      last byte for the blank line, and leaves the true one unread. */
  lemma {:induction false} MisreadIsReal(text: Bytes, rest: Bytes, reset: bool)
    requires |text| == 1024 && LF !in text
    ensures var line := text + [LF];
      && IsLine(line) && !IsBlank(line)
      && SkipTrailers(Wire(line + (CRLF + rest), reset), 16384) == (Ok(()), Wire(CRLF + rest, reset))
  {
    var line := text + [LF];
    assert line[..|line| - 1] == text && line[1024..] == [LF];
    PieceSkipped(line, CRLF + rest, reset, 16384);
    BlankTail([LF], CRLF + rest, reset, 16384 - 1024);
  }

  // The blank line that ends a body, or a trailer line that is misread as its end.
  datatype End = Blank(crlf: bool) | Cut(line: Bytes)

  predicate GoodEnd(end: End) {
    end.Cut? ==> IsLine(end.line) && Misread(end.line)
  }

  function EndBytes(end: End): Bytes {
    match end
    case Blank(crlf) => Eol(crlf)
    case Cut(line) => line
  }

  // What the trailers cost, with the end of the body.
  function Charged(lines: seq<Bytes>, end: End): nat {
    |Lines(lines)| + if end.Cut? then Charge(end.line) else 0
  }

  lemma {:induction false} EndSkipped(end: End, rest: Bytes, reset: bool, budget: nat)
    requires GoodEnd(end)
    ensures var r := SkipTrailers(Wire(EndBytes(end) + rest, reset), budget);
      if Charged([], end) <= budget then r == (Ok(()), Wire(rest, reset)) else r.0 == Err(Refused(400))
  {
    if end.Blank? {
      BlankTail(Eol(end.crlf), rest, reset, budget);
    } else {
      TrailerRead(end.line, rest, reset, budget);
    }
  }

  // Lines that are not misread are skipped to the end that follows them, within the budget.
  lemma {:induction false} TrailersSkipped(lines: seq<Bytes>, end: End, rest: Bytes, reset: bool, budget: nat)
    requires GoodTrailers(lines) && NoneMisread(lines) && GoodEnd(end)
    ensures var r := SkipTrailers(Wire(Lines(lines) + EndBytes(end) + rest, reset), budget);
      if Charged(lines, end) <= budget then r == (Ok(()), Wire(rest, reset)) else r.0 == Err(Refused(400))
    decreases |lines|
  {
    hide SkipTrailers, ReadLine, Misread;
    if lines == [] {
      assert Lines(lines) + EndBytes(end) + rest == EndBytes(end) + rest;
      EndSkipped(end, rest, reset, budget);
    } else {
      var line, others := lines[0], Lines(lines[1..]) + EndBytes(end) + rest;
      assert Lines(lines) + EndBytes(end) + rest == line + others;
      TrailerRead(line, others, reset, budget);
      if |line| <= budget {
        TrailersSkipped(lines[1..], end, rest, reset, budget - |line|);
      }
    }
  }

  // ----- Nothing else is skipped -----

  // A trailer's first piece, before the rest of it.
  lemma {:induction false} PieceBeforeEnd(piece: Bytes, end: End) returns (cut: End)
    requires |piece| == 1024 && 10 !in piece && GoodEnd(end)
    ensures GoodEnd(cut) && EndBytes(cut) == piece + EndBytes(end) && cut.Cut?
    ensures Charge(cut.line) == 1024 + if end.Cut? then Charge(end.line) else 0
  {
    var tail := EndBytes(end);
    var line := piece + tail;
    assert line[1024..] == tail;
    LongerLine(piece, tail);
    MisreadTail(line);
    cut := Cut(line);
  }

  lemma {:induction false} PieceBeforeLine(piece: Bytes, tail: Bytes)
    requires |piece| == 1024 && 10 !in piece && IsLine(tail) && tail != [10] && tail != [13, 10] && !Misread(tail)
    ensures var line := piece + tail; IsLine(line) && line != [10] && line != [13, 10] && !Misread(line)
  {
    var line := piece + tail;
    assert line[1024..] == tail;
    LongerLine(piece, tail);
    MisreadTail(line);
  }

  lemma {:induction false} PieceJoins(piece: Bytes, lines: seq<Bytes>, end: End) returns (lines': seq<Bytes>, end': End)
    requires |piece| == 1024 && 10 !in piece && GoodTrailers(lines) && NoneMisread(lines) && GoodEnd(end)
    ensures GoodTrailers(lines') && NoneMisread(lines') && GoodEnd(end')
    ensures Lines(lines') + EndBytes(end') == piece + (Lines(lines) + EndBytes(end))
    ensures Charged(lines', end') == 1024 + Charged(lines, end)
  {
    hide Misread, IsLine, Charge;
    if lines == [] {
      lines' := [];
      end' := PieceBeforeEnd(piece, end);
      assert Lines([]) + EndBytes(end') == EndBytes(end') && Lines(lines) + EndBytes(end) == EndBytes(end);
    } else {
      PieceBeforeLine(piece, lines[0]);
      lines', end' := [piece + lines[0]] + lines[1..], end;
      assert lines'[1..] == lines[1..];
      assert Lines(lines') == piece + Lines(lines);
    }
  }

  lemma {:induction false} LongerLine(piece: Bytes, tail: Bytes)
    requires 10 !in piece && IsLine(tail)
    ensures IsLine(piece + tail)
  {
    var line := piece + tail;
    forall k | 0 <= k < |line| - 1
      ensures line[k] != 10
    {
      if k < |piece| {
        assert line[k] in piece;
      }
    }
  }

  // What reading a line gives: a whole line, or a piece that no line feed ends.
  lemma {:induction false} LineOrPiece(w: Wire)
    requires ReadLine(w).Ok?
    ensures var line := ReadLine(w).value.0;
      if Ends(line) then IsLine(line) else 10 !in line && (|line| == 1024 || ReadLine(w).value.1.data == [])
  {
    var window := w.data[..Min(1024, |w.data|)];
    var i := IndexOf(window, LF);
    var line := ReadLine(w).value.0;
    if i < |window| {
      assert line == window[..i + 1];
    } else {
      assert line == window;
    }
    hide IndexOf, ReadLine;
  }

  // One more line, or piece of a line, that was skipped.
  lemma {:induction false} SkippedMore(line: Bytes, lines: seq<Bytes>, end: End) returns (lines': seq<Bytes>, end': End)
    requires if Ends(line) then IsLine(line) && !IsBlank(line) else 10 !in line && |line| == 1024
    requires |line| <= 1024 && GoodTrailers(lines) && NoneMisread(lines) && GoodEnd(end)
    ensures GoodTrailers(lines') && NoneMisread(lines') && GoodEnd(end')
    ensures Lines(lines') + EndBytes(end') == line + (Lines(lines) + EndBytes(end))
    ensures Charged(lines', end') == |line| + Charged(lines, end)
  {
    if Ends(line) {
      lines', end' := [line] + lines, end;
      assert lines'[1..] == lines;
    } else {
      lines', end' := PieceJoins(line, lines, end);
    }
  }

  lemma {:induction false} NothingLeft(w: Wire, budget: nat)
    requires w.data == []
    ensures SkipTrailers(w, budget).0.Err?
  {
  }

  lemma {:induction false} SkippedOne(w: Wire, budget: nat)
    requires SkipTrailers(w, budget).0.Ok?
    ensures ReadLine(w).Ok?
    ensures var (line, rest) := ReadLine(w).value;
      if IsBlank(line) then SkipTrailers(w, budget).1 == rest
      else 0 < |line| <= budget && SkipTrailers(w, budget) == SkipTrailers(rest, budget - |line|)
  {
  }

  // The bytes that are skipped to the end of a body are trailers and an end.
  lemma {:induction false} OnlyTrailers(w: Wire, budget: nat) returns (lines: seq<Bytes>, end: End)
    requires SkipTrailers(w, budget).0.Ok?
    ensures GoodTrailers(lines) && NoneMisread(lines) && GoodEnd(end) && Charged(lines, end) <= budget
    ensures w.data == Lines(lines) + EndBytes(end) + SkipTrailers(w, budget).1.data
    ensures SkipTrailers(w, budget).1.reset == w.reset
    decreases |w.data|
  {
    SkippedOne(w, budget);
    var (line, rest) := ReadLine(w).value;
    LineOrPiece(w);
    hide ReadLine, SkipTrailers, Misread, IsLine, Charge, GoodTrailers, NoneMisread, GoodEnd;
    if IsBlank(line) {
      lines, end := [], Blank(line == CRLF);
      JustBlank(line == CRLF);
    } else {
      if rest.data == [] {
        NothingLeft(rest, budget - |line|);
      }
      var after := SkipTrailers(w, budget).1.data;
      assert |w.data| == |line + rest.data|;
      var lines1, end1 := OnlyTrailers(rest, budget - |line|);
      Regrouped(line, Lines(lines1) + EndBytes(end1), after);
      lines, end := SkippedMore(line, lines1, end1);
    }
  }

  lemma {:induction false} Regrouped(a: Bytes, b: Bytes, c: Bytes)
    ensures a + (b + c) == a + b + c
  {
  }

  lemma {:induction false} JustBlank(crlf: bool)
    ensures GoodTrailers([]) && NoneMisread([]) && GoodEnd(Blank(crlf)) && Charged([], Blank(crlf)) == 0
    ensures Lines([]) + EndBytes(Blank(crlf)) == if crlf then CRLF else [LF]
  {
  }

  // ----- Whole bodies -----

  datatype Chunk = Chunk(size: SizeLine, data: Bytes, crlf: bool)

  datatype Message = Message(chunks: seq<Chunk>, last: SizeLine, trailers: seq<Bytes>, end: End)

  predicate GoodChunk(c: Chunk) {
    GoodSizeLine(c.size) && Value(c.size.digits) == |c.data| > 0
  }

  predicate GoodMessage(m: Message) {
    && (forall k | 0 <= k < |m.chunks| :: GoodChunk(m.chunks[k]))
    && GoodSizeLine(m.last) && Value(m.last.digits) == 0
    && GoodTrailers(m.trailers) && GoodEnd(m.end)
  }

  function EncodeChunks(chunks: seq<Chunk>): Bytes
    requires forall k | 0 <= k < |chunks| :: GoodChunk(chunks[k])
  {
    if chunks == [] then []
    else
      assert GoodChunk(chunks[0]);
      Line(chunks[0].size) + chunks[0].data + Eol(chunks[0].crlf) + EncodeChunks(chunks[1..])
  }

  function Encode(m: Message): Bytes
    requires GoodMessage(m)
  {
    EncodeChunks(m.chunks) + (Line(m.last) + (Lines(m.trailers) + EndBytes(m.end)))
  }

  function Content(chunks: seq<Chunk>): Bytes {
    if chunks == [] then [] else chunks[0].data + Content(chunks[1..])
  }

  // A message whose trailers are within the budget and not misread before its end.
  predicate Accepted(m: Message) {
    GoodMessage(m) && NoneMisread(m.trailers) && Charged(m.trailers, m.end) <= 16384
  }

  lemma {:induction false} SizeThenData(size: SizeLine, after: Bytes, reset: bool)
    requires GoodSizeLine(size) && Value(size.digits) > 0
    ensures Body(Wire(Line(size) + after, reset), 0) == Body(Wire(after, reset), Value(size.digits))
  {
    hide ReadLine, SizeOf, SkipTrailers;
    SizeIsRead(size);
    LineRead(Line(size), after, reset);
  }

  lemma {:induction false} DataThenRest(data: Bytes, crlf: bool, others: Bytes, reset: bool)
    requires data != []
    ensures Body(Wire(data + (Eol(crlf) + others), reset), |data|) == Prepend(data, Body(Wire(others, reset), 0))
  {
    hide ReadLine, SizeOf, SkipTrailers;
    var all := data + (Eol(crlf) + others);
    assert all[..|data|] == data && all[|data|..] == Eol(crlf) + others;
    LineRead(Eol(crlf), others, reset);
  }

  // A chunk in front of a body puts its data in front of the content.
  lemma {:induction false} ChunkRead(c: Chunk, others: Bytes, reset: bool)
    requires GoodChunk(c)
    ensures Body(Wire(Line(c.size) + c.data + Eol(c.crlf) + others, reset), 0)
         == Prepend(c.data, Body(Wire(others, reset), 0))
  {
    var after := c.data + (Eol(c.crlf) + others);
    assert Line(c.size) + c.data + Eol(c.crlf) + others == Line(c.size) + after;
    SizeThenData(c.size, after, reset);
    DataThenRest(c.data, c.crlf, others, reset);
  }

  // What the trailers make of a body without chunks.
  lemma {:induction false} LastRead(last: SizeLine, after: Wire)
    requires GoodSizeLine(last) && Value(last.digits) == 0
    ensures var (end, rest) := SkipTrailers(after, 16384);
      Body(Wire(Line(last) + after.data, after.reset), 0) == if end.Ok? then Ok(([], rest)) else Err(end.error)
  {
    hide SizeOf, SkipTrailers;
    SizeIsRead(last);
    LineRead(Line(last), after.data, after.reset);
    assert ReadLine(Wire(Line(last) + after.data, after.reset)) == Ok((Line(last), after));
  }

  lemma {:induction false} EncodeFirst(m: Message, rest: Bytes)
    requires GoodMessage(m) && m.chunks != []
    ensures var c, others := m.chunks[0], m.(chunks := m.chunks[1..]);
      GoodMessage(others) && Encode(m) + rest == Line(c.size) + c.data + Eol(c.crlf) + (Encode(others) + rest)
  {
  }

  // What a message decodes to.
  function Decoded(m: Message, rest: Bytes, reset: bool): Whole
    requires GoodMessage(m)
  {
    Body(Wire(Encode(m) + rest, reset), 0)
  }

  lemma {:induction false} LastDecoded(m: Message, rest: Bytes, reset: bool)
    requires GoodMessage(m) && m.chunks == []
    ensures var (end, after) := SkipTrailers(Wire(Lines(m.trailers) + EndBytes(m.end) + rest, reset), 16384);
      Decoded(m, rest, reset) == if end.Ok? then Ok(([], after)) else Err(end.error)
  {
    var after := Lines(m.trailers) + EndBytes(m.end) + rest;
    assert Encode(m) + rest == Line(m.last) + after;
    LastRead(m.last, Wire(after, reset));
  }

  lemma {:induction false} FirstDecoded(m: Message, rest: Bytes, reset: bool)
    requires GoodMessage(m) && m.chunks != []
    ensures GoodMessage(m.(chunks := m.chunks[1..]))
    ensures Decoded(m, rest, reset) == Prepend(m.chunks[0].data, Decoded(m.(chunks := m.chunks[1..]), rest, reset))
  {
    EncodeFirst(m, rest);
    ChunkRead(m.chunks[0], Encode(m.(chunks := m.chunks[1..])) + rest, reset);
  }

  /** Decoding inverts encoding: an accepted message is decoded to its chunks'
      data, and the connection stands exactly past it; one whose trailers
      exceed the budget is refused. */
  lemma {:induction false} RoundTrip(m: Message, rest: Bytes, reset: bool)
    requires GoodMessage(m) && NoneMisread(m.trailers)
    ensures Decoded(m, rest, reset) == if Accepted(m) then Ok((Content(m.chunks), Wire(rest, reset))) else Err(Refused(400))
    decreases |m.chunks|
  {
    hide Decoded, Lines, SkipTrailers;
    if m.chunks == [] {
      LastDecoded(m, rest, reset);
      TrailersSkipped(m.trailers, m.end, rest, reset, 16384);
    } else {
      FirstDecoded(m, rest, reset);
      RoundTrip(m.(chunks := m.chunks[1..]), rest, reset);
    }
  }

  lemma {:induction false} PrependExact(d: Bytes, r: Whole, content: Bytes, w: Wire)
    ensures Prepend(d, r) == Ok((d + content, w)) <==> r == Ok((content, w))
  {
    if r.Ok? {
      assert (d + r.value.0)[|d|..] == r.value.0;
      assert (d + content)[|d|..] == content;
    }
  }

  /** A body that ends in a blank line is decoded to its data and its true end
      if and only if its trailers are within their budget and none of their
      lines is of the length that is misread. */
  lemma {:induction false} MisreadExact(m: Message, rest: Bytes, reset: bool)
    requires GoodMessage(m) && m.end.Blank?
    ensures Decoded(m, rest, reset) == Ok((Content(m.chunks), Wire(rest, reset)))
       <==> NoneMisread(m.trailers) && |Lines(m.trailers)| <= 16384
    decreases |m.chunks|
  {
    hide Decoded, Lines, SkipTrailers;
    if m.chunks == [] {
      LastDecoded(m, rest, reset);
      var (end, _) := SkipTrailers(Wire(Lines(m.trailers) + EndBytes(m.end) + rest, reset), 16384);
      assert end.Ok? ==> end.value == ();
      TrailersExact(m.trailers, m.end.crlf, rest, reset, 16384);
    } else {
      var others := m.(chunks := m.chunks[1..]);
      FirstDecoded(m, rest, reset);
      MisreadExact(others, rest, reset);
      PrependExact(m.chunks[0].data, Decoded(others, rest, reset), Content(others.chunks), Wire(rest, reset));
    }
  }

  // ----- Nothing else is a body -----

  // A size line at the front, as it was read.
  lemma {:induction false} SizeRead(w: Wire) returns (l: SizeLine)
    requires ReadLine(w).Ok? && SizeOf(ReadLine(w).value.0).Some?
    ensures GoodSizeLine(l) && Value(l.digits) == SizeOf(ReadLine(w).value.0).value
    ensures Line(l) == ReadLine(w).value.0
  {
    LineOrPiece(w);
    l := OnlySizeLines(ReadLine(w).value.0);
  }

  lemma {:induction false} LastOnly(w: Wire) returns (m: Message)
    requires Body(w, 0).Ok? && SizeOf(ReadLine(w).value.0) == Some(0)
    ensures Accepted(m) && m.chunks == []
    ensures var (content, after) := Body(w, 0).value;
      content == [] && w.data == Encode(m) + after.data && after.reset == w.reset
  {
    hide SizeOf, SkipTrailers;
    var (line, rest) := ReadLine(w).value;
    var l := SizeRead(w);
    var lines, end := OnlyTrailers(rest, 16384);
    m := Message([], l, lines, end);
    assert Encode(m) + Body(w, 0).value.1.data == line + (Lines(lines) + EndBytes(end) + Body(w, 0).value.1.data);
  }

  // The data of a chunk, and the line end after it.
  lemma {:induction false} DataOnly(w: Wire, k: nat) returns (data: Bytes, crlf: bool, rest: Wire)
    requires Body(w, k).Ok? && k > 0
    ensures |data| == k && w.data == data + Eol(crlf) + rest.data && rest.reset == w.reset
    ensures Body(w, k) == Prepend(data, Body(rest, 0))
  {
    hide SizeOf, SkipTrailers, ReadLine;
    data := w.data[..k];
    var (line, after) := ReadLine(w.(data := w.data[k..])).value;
    crlf, rest := line == CRLF, after;
    assert w.data == data + w.data[k..];
  }

  // A chunk before a message makes a message.
  lemma {:induction false} ChunkBefore(c: Chunk, others: Message, rest: Bytes) returns (m: Message)
    requires GoodChunk(c) && Accepted(others)
    ensures Accepted(m) && Content(m.chunks) == c.data + Content(others.chunks)
    ensures Encode(m) + rest == Line(c.size) + (c.data + Eol(c.crlf) + (Encode(others) + rest))
  {
    hide Line;
    m := others.(chunks := [c] + others.chunks);
    assert m.chunks[1..] == others.chunks && others == m.(chunks := m.chunks[1..]);
    EncodeFirst(m, rest);
  }

  /** Whatever is decoded was an accepted message of that data: nothing is
      read as a body but an encoding of it. */
  lemma {:induction false} OnlyMessages(w: Wire) returns (m: Message)
    requires Body(w, 0).Ok?
    ensures Accepted(m)
    ensures var (content, after) := Body(w, 0).value;
      Content(m.chunks) == content && w.data == Encode(m) + after.data && after.reset == w.reset
    decreases |w.data|
  {
    var (line, rest) := ReadLine(w).value;
    assert w.data == line + rest.data;
    var k := SizeOf(line).value;
    if k == 0 {
      m := LastOnly(w);
    } else {
      var l := SizeRead(w);
      hide SizeOf, ReadLine, Accepted, Encode, Line, SkipTrailers;
      var data, crlf, next := DataOnly(rest, k);
      assert Body(w, 0) == Body(rest, k);
      hide Body;
      var others := OnlyMessages(next);
      m := ChunkBefore(Chunk(l, data, crlf), others, Body(w, 0).value.1.data);
    }
  }

  /** What a chunked body is, exactly: the reader gives this content and stops
      at this place of the connection if and only if what it took is an
      accepted message of that content. */
  lemma {:induction false} BodyExact(w: Wire, content: Bytes, after: Wire)
    ensures Body(w, 0) == Ok((content, after)) <==>
      exists m :: Accepted(m) && Content(m.chunks) == content && w == Wire(Encode(m) + after.data, after.reset)
  {
    if Body(w, 0) == Ok((content, after)) {
      var m := OnlyMessages(w);
    }
    if m :| Accepted(m) && Content(m.chunks) == content && w == Wire(Encode(m) + after.data, after.reset) {
      RoundTrip(m, after.data, after.reset);
    }
  }

  /** For every encoding of a body within the limit and for every sequence of
      read sizes long enough, the reads return the chunks' data in order and
      leave the connection exactly past the body. */
  lemma {:induction false} ReadsInvert(m: Message, rest: Bytes, reset: bool, limit: nat, sizes: seq<nat>)
    requires Accepted(m)
    requires |Content(m.chunks)| <= limit && Positive(sizes) && |sizes| > |Content(m.chunks)|
    ensures var r := Reader(Wire(Encode(m) + rest, reset), Chunks(0, false), false, 0, limit);
      var (d, last) := Reads(r, sizes);
      d == Content(m.chunks) && last.wire == Wire(rest, reset) && AtEnd(last)
  {
    hide Body, Reads, Encode, Lines;
    RoundTrip(m, rest, reset);
    ReadsFinish(Reader(Wire(Encode(m) + rest, reset), Chunks(0, false), false, 0, limit), sizes);
  }

  /** A connection is reused only past a whole message: when draining a new
      chunked body, after any reads with any outcomes, reports its end, then
      the bytes taken off are an accepted message. */
  lemma {:induction false} DrainedIsMessage(r: Reader, sizes: seq<nat>) returns (m: Message)
    requires Positive(sizes) && !r.broken && r.framing == Chunks(0, false)
    requires Drain(Reads(r, sizes).1).0
    ensures Accepted(m)
    ensures r.wire.data == Encode(m) + Drain(Reads(r, sizes).1).1.wire.data
  {
    hide Body, Reads, Encode, Lines, Drain;
    DrainExact(r, sizes);
    assert ToCome(r) == Body(r.wire, 0);
    m := OnlyMessages(r.wire);
  }
}
