/** The streaming multipart reader against its whole body: the searches agree
    with a search of the whole, and parsing inverts encoding for every way of
    cutting the body into reads. */
module MultipartTheorems {
  import opened Common
  import opened Bytes
  import opened Multipart

  // ----- The two searches -----

  // Holding back all but one byte of a token loses no occurrence.
  lemma {:induction false} HeldBack(buf: Bytes, rest: Bytes, token: Bytes, cut: nat)
    requires Find(buf, token) == -1 && |token| > 1
    requires cut == if |buf| > |token| - 1 then |buf| - (|token| - 1) else 0
    ensures buf + rest == buf[..cut] + (buf[cut..] + rest)
    ensures var j := Find(buf[cut..] + rest, token); Find(buf + rest, token) == if j == -1 then -1 else cut + j
  {
    var held := buf[cut..] + rest;
    assert buf + rest == buf[..cut] + held;
    forall p | 0 <= p < cut
      ensures !Occurs(buf[..cut] + held, token, p)
    {
      if Occurs(buf + rest, token, p) {
        NotFoundYet(buf, rest, token, p);
      }
    }
    FindShift(buf[..cut], held, token);
  }

  lemma {:induction false} FoundInBuffer(buf: Bytes, rest: Bytes, token: Bytes)
    requires Find(buf, token) >= 0
    ensures var i := Find(buf, token);
      && Find(buf + rest, token) == i
      && (buf + rest)[..i] == buf[..i] && (buf + rest)[i + |token|..] == buf[i + |token|..] + rest
  {
    FoundStays(buf, rest, token);
  }

  // How many bytes cannot be the beginning of a token that is still to come.
  function Spare(b: Bytes, token: Bytes): (n: nat)
    ensures n <= |b|
  {
    if |b| > |token| - 1 >= 0 then |b| - (|token| - 1) else 0
  }

  // What a search of the whole body w makes of a copy.
  ghost predicate Outcome(w: Bytes, token: Bytes, end: Error, r: (Bytes, Result<Stream, Error>)) {
    var i := Find(w, token);
    if i >= 0 then r.0 == w[..i] && r.1.Ok? && Whole(r.1.value) == w[i + |token|..]
    else r.0 == w[..Spare(w, token)] && r.1 == Err(end)
  }

  ghost predicate CopiesWhole(st: Stream, token: Bytes)
    requires |token| > 1
  {
    Outcome(Whole(st), token, EndError(st), CopyUntil(st, token))
  }

  lemma {:induction false} OutcomeBehind(a: Bytes, w: Bytes, token: Bytes, end: Error,
                                         r: (Bytes, Result<Stream, Error>))
    requires |token| > 1 && Outcome(w, token, end, r)
    requires a == [] || |w| >= |token| - 1
    requires Find(a + w, token) == if Find(w, token) == -1 then -1 else |a| + Find(w, token)
    ensures Outcome(a + w, token, end, (a + r.0, r.1))
  {
    var j := Find(w, token);
    hide Find, Whole;
    if j >= 0 {
      Rejoined(a, w, j, |token|);
    } else {
      assert (a + w)[..Spare(a + w, token)] == a + w[..Spare(w, token)];
    }
  }

  lemma {:induction false} CopyStep(st: Stream, token: Bytes, cut: nat)
    requires |token| > 1 && Find(st.buf, token) == -1 && Proper(st) && st.pieces != []
    requires cut == Spare(st.buf, token)
    requires CopiesWhole(Fill(st.(buf := st.buf[cut..])).value, token)
    ensures CopiesWhole(st, token)
  {
    var a := st.buf[..cut];
    var next := Fill(st.(buf := st.buf[cut..])).value;
    HeldBack(st.buf, Flat(st.pieces), token, cut);
    assert Whole(st) == a + Whole(next);
    OutcomeBehind(a, Whole(next), token, EndError(st), CopyUntil(next, token));
  }

  lemma {:induction false} Rejoined(a: Bytes, b: Bytes, j: nat, n: nat)
    requires j + n <= |b|
    ensures (a + b)[..|a| + j] == a + b[..j]
    ensures (a + b)[|a| + j + n..] == b[j + n..]
  {
  }

  /** Copying agrees with a search of the whole body: what is written is
      exactly what stands before the first token, and the rest is what stands
      after it; without a token the copy fails, having written all of the
      body that could not begin a token. */
  lemma {:induction false} CopyAgrees(st: Stream, token: Bytes)
    requires Proper(st) && |token| > 1
    ensures CopiesWhole(st, token)
    decreases |st.pieces|
  {
    if Find(st.buf, token) >= 0 {
      FoundInBuffer(st.buf, Flat(st.pieces), token);
    } else {
      var cut := if |st.buf| > |token| - 1 then |st.buf| - (|token| - 1) else 0;
      if st.pieces == [] {
        assert Whole(st) == st.buf;
      } else {
        CopyAgrees(Fill(st.(buf := st.buf[cut..])).value, token);
        CopyStep(st, token, cut);
      }
    }
  }

  /** Reading a bounded block agrees with a search of the whole body, as soon
      as the block and its token but one byte fit the limit; a block past the
      limit, or none, fails. */
  lemma {:induction false} ReadAgrees(st: Stream, token: Bytes, limit: nat)
    requires Proper(st) && |token| > 0
    ensures var w := Whole(st); var i := Find(w, token); var r := ReadUntil(st, token, limit);
      && (r.Ok? ==> 0 <= i <= limit && r.value.0 == w[..i] && Whole(r.value.1) == w[i + |token|..])
      && (0 <= i && i + |token| - 1 <= limit ==> r.Ok?)
      && (i > limit || (i < 0 && |w| > limit) ==> r == Err(HeadersTooLarge))
      && (i < 0 && |w| <= limit ==> r == Err(EndError(st)))
      && (r.Err? && i >= 0 ==> r == Err(HeadersTooLarge))
    decreases |st.pieces|
  {
    var w, rest := Whole(st), Flat(st.pieces);
    var i := Find(st.buf, token);
    if i >= 0 {
      FoundStays(st.buf, rest, token);
      assert w[..i] == st.buf[..i] && w[i + |token|..] == st.buf[i + |token|..] + rest;
    } else {
      var j := Find(w, token);
      if j >= 0 {
        NotFoundYet(st.buf, rest, token, j);
      }
      if |st.buf| <= limit {
        if st.pieces == [] {
          assert rest == [] && w == st.buf;
        } else {
          ReadAgrees(Fill(st).value, token, limit);
        }
      }
    }
  }

  /** Between the two, the outcome depends on the cuts: for every body whose
      block fits but whose token crosses the limit, delivering it whole
      succeeds and cutting it just past the limit is refused. */
  lemma {:induction false} LimitZone(w: Bytes, token: Bytes, limit: nat, fault: Option<Error>)
    requires |token| > 1 && 0 <= Find(w, token) <= limit < Find(w, token) + |token| - 1
    ensures ReadUntil(Stream(w, [], fault), token, limit).Ok?
    ensures limit + 1 < |w|
    ensures var cut := Stream(w[..limit + 1], [w[limit + 1..]], fault);
      Proper(cut) && Whole(cut) == w && ReadUntil(cut, token, limit) == Err(HeadersTooLarge)
  {
    var i := Find(w, token);
    var a, b := w[..limit + 1], w[limit + 1..];
    assert w == a + b;
    assert Flat([b]) == b + Flat([]) == b;
    if Find(a, token) >= 0 {
      FoundStays(a, b, token);
    }
  }

  lemma {:induction false} PeekAgrees(st: Stream)
    requires Proper(st)
    ensures Peek(st).Ok? <==> |Whole(st)| >= 2
    ensures Peek(st).Err? ==> Peek(st) == Err(EndError(st))
    decreases |st.pieces|
  {
    if |st.buf| < 2 && st.pieces != [] {
      PeekAgrees(Fill(st).value);
    }
  }

  // ----- Encoding -----

  datatype Part = Part(padding: Bytes, header: Bytes, content: Bytes)

  // A header block, with the blank line that ends it.
  function HeaderBlock(h: Bytes): Bytes {
    if h == [] then [13, 10] else h + [13, 10, 13, 10]
  }

  // The parts from just after a delimiter on, each up to the next one, and what follows the last.
  function Encode(parts: seq<Part>, boundary: Bytes, tail: Bytes): Bytes {
    if parts == [] then tail
    else
      var p := parts[0];
      p.padding + [13, 10] + HeaderBlock(p.header) + p.content + ([13, 10, 45, 45] + boundary)
      + Encode(parts[1..], boundary, tail)
  }

  // A body: its first line is a delimiter, or a preamble stands before it.
  function Body(preamble: Option<Bytes>, parts: seq<Part>, boundary: Bytes, epilogue: Bytes): Bytes {
    (if preamble.Some? then preamble.value + [13, 10] else [])
    + [45, 45] + boundary + Encode(parts, boundary, [45, 45] + epilogue)
  }

  // A header block that its first blank line ends.
  predicate EndsItself(h: Bytes) {
    && !Contains(h, [13, 10, 13, 10])
    && !(|h| >= 2 && h[..2] == [13, 10])
    && !(|h| >= 2 && h[|h| - 2..] == [13, 10])
  }

  predicate GoodHeader(h: Bytes) {
    EndsItself(h) && |h| + 3 <= 16384
  }

  // Spaces and tabs, not too many.
  predicate GoodPadding(b: Bytes) {
    |b| <= 16384 && forall k | 0 <= k < |b| :: b[k] == 32 || b[k] == 9
  }

  predicate GoodPart(p: Part, boundary: Bytes) {
    GoodHeader(p.header) && !Contains(p.content, [13, 10, 45, 45] + boundary) && GoodPadding(p.padding)
  }

  predicate GoodBoundary(b: Bytes) {
    13 !in b && |b| + 3 <= 16384
  }

  predicate GoodPreamble(preamble: Option<Bytes>, boundary: Bytes) {
    preamble.Some? ==>
      && !Contains([13, 10] + preamble.value, [13, 10, 45, 45] + boundary)
      && |preamble.value| + |boundary| + 5 <= 16384
  }

  // ----- Parsing what was encoded -----

  lemma {:induction false} HeaderEndsLater(h: Bytes, rest: Bytes, d: nat)
    requires EndsItself(h) && 1 <= d <= 3 && d <= |h|
    ensures !Occurs(h + BLANK_LINE + rest, BLANK_LINE, |h| - d)
  {
    var w, p := h + BLANK_LINE + rest, |h| - d;
    assert w[|h|] == CR;
    if d == 2 {
      assert h[p..] == [h[p], h[p + 1]];
      NotThere(w, BLANK_LINE, p, if h[p] != CR then 0 else 1);
    } else {
      NotThere(w, BLANK_LINE, p, d);
    }
  }

  lemma {:induction false} HeaderFound(h: Bytes, rest: Bytes)
    requires EndsItself(h)
    ensures Find(h + BLANK_LINE + rest, BLANK_LINE) == |h|
  {
    var w := h + BLANK_LINE + rest;
    assert w == h + (BLANK_LINE + rest);
    assert w[|h|..|h| + 4] == BLANK_LINE;
    forall p | 0 <= p < |h|
      ensures !Occurs(w, BLANK_LINE, p)
    {
      if p + 4 <= |h| {
        OccursInPrefix(h, BLANK_LINE + rest, BLANK_LINE, p);
      } else {
        HeaderEndsLater(h, rest, |h| - p);
      }
    }
    FindIs(w, BLANK_LINE, |h|);
  }

  lemma {:induction false} PaddingSkipped(st: Stream, skipped: nat, padding: Bytes, rest: Bytes)
    requires Proper(st) && |st.buf| >= 2 && Whole(st) == padding + rest
    requires |rest| >= 2 && !Blank(rest[0])
    requires skipped + |padding| <= 16384 && (forall k | 0 <= k < |padding| :: padding[k] == 32 || padding[k] == 9)
    ensures SkipPadding(st, skipped).Ok? && Whole(SkipPadding(st, skipped).value) == rest
    decreases |padding|
  {
    assert st.buf[0] == Whole(st)[0];
    if padding == [] {
      assert Whole(st) == rest;
    } else {
      var s1 := st.(buf := st.buf[1..]);
      assert Whole(s1) == Whole(st)[1..] == padding[1..] + rest;
      PeekAgrees(s1);
      PaddingSkipped(Peek(s1).value, skipped + 1, padding[1..], rest);
    }
  }

  lemma {:induction false} NoBlankLineYet(st: Stream, h: Bytes, rest: Bytes)
    requires |st.buf| >= 2 && Whole(st) == h + BLANK_LINE + rest && h != [] && GoodHeader(h)
    ensures st.buf[..2] != CRLF
  {
    var w := h + BLANK_LINE + rest;
    assert st.buf[0] == w[0] && st.buf[1] == w[1];
    if |h| == 1 {
      assert w[1] == CR;
    } else {
      assert w[0] == h[0] && w[1] == h[1];
      assert h[..2] == [h[0], h[1]];
    }
  }

  lemma {:induction false} HeaderLine(st: Stream, h: Bytes, rest: Bytes)
    requires Proper(st) && Whole(st) == h + BLANK_LINE + rest && GoodHeader(h)
    ensures var r := ReadUntil(st, BLANK_LINE, MAX_HEADER); r.Ok? && r.value.0 == h && Whole(r.value.1) == rest
  {
    var w := h + BLANK_LINE + rest;
    HeaderFound(h, rest);
    ReadAgrees(st, BLANK_LINE, MAX_HEADER);
    assert w[..|h|] == h && w[|h| + 4..] == rest;
  }

  lemma {:induction false} TwoShown(st: Stream, rest: Bytes, two: Bytes)
    requires |st.buf| >= 2 && |two| == 2 && Whole(st) == two + rest
    ensures st.buf[..2] == two && Whole(st.(buf := st.buf[2..])) == rest
  {
    assert st.buf[..2] == Whole(st)[..2];
    assert Whole(st.(buf := st.buf[2..])) == Whole(st)[2..];
  }

  lemma {:induction false} HeaderRead(st: Stream, h: Bytes, rest: Bytes)
    requires Proper(st) && |st.buf| >= 2 && Whole(st) == CRLF + (HeaderBlock(h) + rest) && GoodHeader(h)
    ensures Opened(st).Ok? && Opened(st).value.0 == Header(h) && Whole(Opened(st).value.1) == rest
  {
    TwoShown(st, HeaderBlock(h) + rest, CRLF);
    var s1 := st.(buf := st.buf[2..]);
    PeekAgrees(s1);
    var s2 := Peek(s1).value;
    if h == [] {
      TwoShown(s2, rest, CRLF);
    } else {
      NoBlankLineYet(s2, h, rest);
      HeaderLine(s2, h, rest);
    }
  }

  lemma {:induction false} DelimiterRead(st: Stream, p: Part, rest: Bytes)
    requires Proper(st) && Whole(st) == p.padding + CRLF + HeaderBlock(p.header) + rest
    requires GoodHeader(p.header) && GoodPadding(p.padding)
    ensures AfterDelimiter(st).Ok? && AfterDelimiter(st).value.0 == Header(p.header)
    ensures Whole(AfterDelimiter(st).value.1) == rest && Proper(AfterDelimiter(st).value.1)
  {
    PeekAgrees(st);
    var s1 := Peek(st).value;
    var line := CRLF + (HeaderBlock(p.header) + rest);
    assert Whole(s1) == p.padding + line;
    assert s1.buf[0] == Whole(s1)[0];
    assert s1.buf[..2][0] == s1.buf[0] != DASH;
    PaddingSkipped(s1, 0, p.padding, line);
    HeaderRead(SkipPadding(s1, 0).value, p.header, rest);
  }

  lemma {:induction false} ClosingRead(st: Stream, epilogue: Bytes)
    requires Proper(st) && Whole(st) == DASHES + epilogue && st.fault.None?
    ensures AfterDelimiter(st).Ok? && AfterDelimiter(st).value.0 == Closing
  {
    PeekAgrees(st);
    var s1 := Peek(st).value;
    assert s1.buf[..2] == Whole(s1)[..2] == DASHES;
  }

  function Shown(parts: seq<Part>): seq<(Bytes, Bytes)> {
    if parts == [] then [] else [(parts[0].header, parts[0].content)] + Shown(parts[1..])
  }

  lemma {:induction false} SeparatorIsFound(u: Bytes, boundary: Bytes, rest: Bytes)
    requires CR !in boundary && !Contains(u, Separator(boundary))
    ensures Find(u + Separator(boundary) + rest, Separator(boundary)) == |u|
  {
    var t := Separator(boundary);
    forall k | 0 < k < |t|
      ensures t[k] != t[0]
    {
      if k >= 4 {
        assert t[k] == boundary[k - 4];
      }
    }
    FoundAfter(u, t, rest);
  }

  // One part: its header block is read, and its content copied.
  lemma {:induction false} PartRead(st: Stream, p: Part, boundary: Bytes, tail: Bytes)
    requires CR !in boundary && GoodPart(p, boundary) && Proper(st)
    requires Whole(st) == p.padding + CRLF + HeaderBlock(p.header) + (p.content + Separator(boundary) + tail)
    ensures AfterDelimiter(st).Ok? && AfterDelimiter(st).value.0 == Header(p.header)
    ensures var r := CopyUntil(AfterDelimiter(st).value.1, Separator(boundary));
      r.0 == p.content && r.1.Ok? && Whole(r.1.value) == tail && Follows(st, r.1.value)
  {
    var t := Separator(boundary);
    DelimiterRead(st, p, p.content + t + tail);
    assert t == [13, 10, 45, 45] + boundary;
    SeparatorIsFound(p.content, boundary, tail);
    CopyAgrees(AfterDelimiter(st).value.1, t);
    assert (p.content + t + tail)[..|p.content|] == p.content;
    assert (p.content + t + tail)[|p.content| + |t|..] == tail;
  }

  lemma {:induction false} FirstPart(parts: seq<Part>, boundary: Bytes, tail: Bytes)
    requires parts != []
    ensures var p := parts[0];
      Encode(parts, boundary, tail)
      == p.padding + CRLF + HeaderBlock(p.header) + (p.content + Separator(boundary) + Encode(parts[1..], boundary, tail))
  {
    var p, tail, separator := parts[0], Encode(parts[1..], boundary, tail), Separator(boundary);
    var lead := p.padding + CRLF + HeaderBlock(p.header);
    assert lead + p.content + separator + tail == lead + (p.content + separator + tail);
  }

  lemma {:induction false} PartAndRest(st: Stream, separator: Bytes, raw: Bytes, next: Stream, content: Bytes,
                                       after: Stream)
    requires |separator| > 1 && AfterDelimiter(st) == Ok((Header(raw), next))
    requires CopyUntil(next, separator) == (content, Ok(after))
    ensures var rest := PartsFrom(after, separator);
      PartsFrom(st, separator) == Parsed([(raw, content)] + rest.parts, rest.status)
  {
  }

  lemma {:induction false} PartsInvert(st: Stream, parts: seq<Part>, boundary: Bytes, epilogue: Bytes)
    requires CR !in boundary && (forall i | 0 <= i < |parts| :: GoodPart(parts[i], boundary))
    requires Proper(st) && st.fault.None? && Whole(st) == Encode(parts, boundary, [45, 45] + epilogue)
    ensures PartsFrom(st, Separator(boundary)) == Parsed(Shown(parts), Ok(()))
    decreases parts
  {
    if parts == [] {
      ClosingRead(st, epilogue);
    } else {
      var p, t := parts[0], Separator(boundary);
      FirstPart(parts, boundary, [45, 45] + epilogue);
      PartRead(st, p, boundary, Encode(parts[1..], boundary, [45, 45] + epilogue));
      var next := AfterDelimiter(st).value.1;
      var after := CopyUntil(next, t).1.value;
      PartsInvert(after, parts[1..], boundary, epilogue);
      PartAndRest(st, t, p.header, next, p.content, after);
    }
  }

  // What stands before the first delimiter, once a line break is put before the body.
  function Lead(preamble: Option<Bytes>): Bytes {
    if preamble.Some? then CRLF + preamble.value else []
  }

  lemma {:induction false} BodyFromLead(preamble: Option<Bytes>, parts: seq<Part>, boundary: Bytes, epilogue: Bytes)
    ensures var t := Separator(boundary);
      CRLF + Body(preamble, parts, boundary, epilogue) == Lead(preamble) + t + Encode(parts, boundary, [45, 45] + epilogue)
  {
    var tail := Encode(parts, boundary, [45, 45] + epilogue);
    if preamble.Some? {
      var p := preamble.value;
      assert CRLF + (p + CRLF + DASHES + boundary + tail) == CRLF + p + (CRLF + DASHES + boundary) + tail;
    } else {
      assert CRLF + ([] + DASHES + boundary + tail) == [] + (CRLF + DASHES + boundary) + tail;
    }
  }

  lemma {:induction false} FirstDelimiter(preamble: Option<Bytes>, boundary: Bytes, tail: Bytes)
    requires GoodBoundary(boundary) && GoodPreamble(preamble, boundary)
    ensures var t := Separator(boundary); var u := Lead(preamble);
      Find(u + t + tail, t) == |u| && (u + t + tail)[|u| + |t|..] == tail
  {
    assert Separator(boundary) == [13, 10, 45, 45] + boundary;
    SeparatorIsFound(Lead(preamble), boundary, tail);
  }

  /** Multipart round trip under any chunking: for every list of parts (with
      header blocks their blank line ends, contents free of the delimiter,
      padded delimiter lines, a preamble and an epilogue), and every way of
      cutting the encoded body into non-empty reads, the reader yields exactly
      those header blocks and contents, in order, and succeeds. */
  lemma {:induction false} RoundTrip(preamble: Option<Bytes>, parts: seq<Part>, boundary: Bytes, epilogue: Bytes,
                                     pieces: seq<Bytes>)
    requires GoodBoundary(boundary) && GoodPreamble(preamble, boundary)
    requires forall i | 0 <= i < |parts| :: GoodPart(parts[i], boundary)
    requires Flat(pieces) == Body(preamble, parts, boundary, epilogue)
    requires forall i | 0 <= i < |pieces| :: pieces[i] != []
    ensures Parts(Start(pieces), boundary) == Parsed(Shown(parts), Ok(()))
  {
    var st, t := Start(pieces), Separator(boundary);
    var tail := Encode(parts, boundary, [45, 45] + epilogue);
    BodyFromLead(preamble, parts, boundary, epilogue);
    FirstDelimiter(preamble, boundary, tail);
    assert Proper(st) && Whole(st) == Lead(preamble) + t + tail;
    ReadAgrees(st, t, MAX_HEADER);
    PartsInvert(ReadUntil(st, t, MAX_HEADER).value.1, parts, boundary, epilogue);
  }
}
