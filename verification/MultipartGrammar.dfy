/** What is a multipart body: everything the reader yields, from any body and
    in any delivery, stood in the body as the encoder writes it. */
module MultipartGrammar {
  import opened Common
  import opened Bytes
  import opened Multipart
  import opened MultipartTheorems

  // ----- One part -----

  // A header block that the reader may accept.
  predicate FairHeader(h: Bytes) {
    EndsItself(h) && |h| <= 16384
  }

  // A body divides at the first token in it.
  lemma {:induction false} FoundDivides(w: Bytes, token: Bytes)
    requires Find(w, token) >= 0 && token != []
    ensures var i := Find(w, token);
      && w == w[..i] + token + w[i + |token|..] && w == w[..i] + w[i..] && !Contains(w[..i], token)
  {
    var i := Find(w, token);
    assert w == w[..i] + w[i..i + |token|] + w[i + |token|..];
    assert w == w[..i] + w[i..];
    if Contains(w[..i], token) {
      FoundStays(w[..i], w[i..], token);
    }
  }

  lemma {:induction false} BufferLeads(st: Stream, n: nat)
    requires n <= |st.buf|
    ensures Whole(st) == st.buf[..n] + Whole(st.(buf := st.buf[n..]))
  {
    assert st.buf == st.buf[..n] + st.buf[n..];
  }

  // The whitespace that is skipped.
  lemma {:induction false} PaddingOnly(st: Stream, k: nat) returns (padding: Bytes)
    requires Proper(st) && |st.buf| >= 2 && k <= 16384 && SkipPadding(st, k).Ok?
    ensures k + |padding| <= 16384 && forall i | 0 <= i < |padding| :: padding[i] == 32 || padding[i] == 9
    ensures Whole(st) == padding + Whole(SkipPadding(st, k).value) && Proper(SkipPadding(st, k).value)
    decreases |Whole(st)|
  {
    if !Blank(st.buf[0]) {
      padding := [];
    } else {
      var next := st.(buf := st.buf[1..]);
      BufferLeads(st, 1);
      var rest := PaddingOnly(Peek(next).value, k + 1);
      padding := [st.buf[0]] + rest;
      assert st.buf[..1] == [st.buf[0]];
    }
  }

  // A block that was read up to its first blank line.
  lemma {:induction false} BlockOnly(st: Stream)
    requires Proper(st) && |st.buf| >= 2 && st.buf[..2] != CRLF && ReadUntil(st, BLANK_LINE, MAX_HEADER).Ok?
    ensures var (raw, next) := ReadUntil(st, BLANK_LINE, MAX_HEADER).value;
      raw != [] && FairHeader(raw) && Whole(st) == raw + BLANK_LINE + Whole(next)
  {
    var (raw, next) := ReadUntil(st, BLANK_LINE, MAX_HEADER).value;
    var w := Whole(st);
    ReadAgrees(st, BLANK_LINE, MAX_HEADER);
    var i := Find(w, BLANK_LINE);
    FoundDivides(w, BLANK_LINE);
    assert w[..2] == st.buf[..2];
    FirstEndsItself(w, i);
  }

  lemma {:induction false} FirstEndsItself(w: Bytes, i: nat)
    requires Find(w, BLANK_LINE) == i && |w| >= 2 && w[..2] != CRLF
    ensures EndsItself(w[..i]) && i > 0
  {
    var h := w[..i];
    FoundDivides(w, BLANK_LINE);
    assert w[i..i + 2] == w[i..i + 4][..2] == CRLF && w[0..2] == w[..2];
    if i >= 2 {
      assert !Occurs(w, BLANK_LINE, i - 2);
      assert w[i - 2..i + 2] == h[i - 2..] + w[i..i + 2] && CRLF + CRLF == BLANK_LINE;
      assert h[..2] == w[..2];
    }
  }

  lemma {:induction false} OpenedOnly(st: Stream)
    requires Proper(st) && |st.buf| >= 2 && Opened(st).Ok?
    ensures var (event, next) := Opened(st).value;
      FairHeader(event.raw) && Whole(st) == [13, 10] + HeaderBlock(event.raw) + Whole(next) && Proper(next)
  {
    var s1 := st.(buf := st.buf[2..]);
    BufferLeads(st, 2);
    var s2 := Peek(s1).value;
    if s2.buf[..2] == CRLF {
      BufferLeads(s2, 2);
    } else {
      BlockOnly(s2);
    }
  }

  // A header that was yielded stood after a delimiter, behind its padding.
  lemma {:induction false} HeaderOnly(st: Stream) returns (padding: Bytes)
    requires Proper(st) && AfterDelimiter(st).Ok? && AfterDelimiter(st).value.0.Header?
    ensures var (event, next) := AfterDelimiter(st).value;
      && FairHeader(event.raw) && GoodPadding(padding) && Proper(next)
      && Whole(st) == padding + [13, 10] + HeaderBlock(event.raw) + Whole(next)
  {
    var s1 := Peek(st).value;
    padding := PaddingOnly(s1, 0);
    var s2 := SkipPadding(s1, 0).value;
    OpenedOnly(s2);
    var (event, next) := Opened(s2).value;
    assert Whole(st) == padding + ([13, 10] + HeaderBlock(event.raw) + Whole(next));
  }

  // ----- All parts -----

  predicate FairPart(p: Part, boundary: Bytes) {
    FairHeader(p.header) && !Contains(p.content, [13, 10, 45, 45] + boundary) && GoodPadding(p.padding)
  }

  predicate FairParts(parts: seq<Part>, boundary: Bytes) {
    forall i | 0 <= i < |parts| :: FairPart(parts[i], boundary)
  }

  // How a body ends that is not whole: with what its reader raised, or early.
  function Cause(fault: Option<Error>): Error {
    match fault
    case Some(e) => e
    case None => EndedEarly
  }

  /** What follows the complete parts: the closing delimiter; or, in a body
      that fails, something else, of which one part may have been begun. */
  ghost predicate Follow(tail: Bytes, last: Option<Part>, status: Result<(), Error>, fault: Option<Error>, boundary: Bytes) {
    if status.Ok? then last.None? && |tail| >= 2 && tail[..2] == [45, 45] && fault.None?
    else if last.None? then
      && (|tail| < 2 ==> status.error == Cause(fault))
      && (|tail| >= 2 && tail[..2] == [45, 45] ==> fault == Some(status.error))
      && status.error in {HeadersTooLarge, InvalidDelimiter, Cause(fault)}
    else
      && status.error == Cause(fault)
      && FairHeader(last.value.header) && GoodPadding(last.value.padding)
      && last.value.padding + [13, 10] + HeaderBlock(last.value.header) + last.value.content <= tail
      && !Contains(tail[|last.value.padding + [13, 10] + HeaderBlock(last.value.header)|..], [13, 10, 45, 45] + boundary)
  }

  function Yielded(parts: seq<Part>, last: Option<Part>): seq<(Bytes, Bytes)> {
    Shown(parts) + if last.Some? then [(last.value.header, last.value.content)] else []
  }

  // A part's content, up to the next delimiter or as far as it came.
  lemma {:induction false} ContentOnly(st: Stream, boundary: Bytes)
    requires Proper(st)
    ensures var t := [13, 10, 45, 45] + boundary; var (content, r) := CopyUntil(st, Separator(boundary));
      if r.Ok? then !Contains(content, t) && Whole(st) == content + t + Whole(r.value) && Proper(r.value)
      else !Contains(Whole(st), t) && content <= Whole(st) && r.error == Cause(st.fault)
  {
    var t := Separator(boundary);
    assert t == [13, 10, 45, 45] + boundary;
    CopyAgrees(st, t);
    var w := Whole(st);
    var i := Find(w, t);
    if i >= 0 {
      FoundDivides(w, t);
    }
  }

  lemma {:induction false} ClosingOnly(st: Stream)
    requires Proper(st) && AfterDelimiter(st).Ok? && AfterDelimiter(st).value.0.Closing?
    ensures |Whole(st)| >= 2 && Whole(st)[..2] == [45, 45] && st.fault.None?
  {
    var s1 := Peek(st).value;
    assert Whole(s1)[..2] == s1.buf[..2];
  }

  lemma {:induction false} PaddingFails(st: Stream, k: nat)
    requires Proper(st) && |st.buf| >= 2 && SkipPadding(st, k).Err?
    ensures SkipPadding(st, k).error in {InvalidDelimiter, Cause(st.fault)}
    decreases |Whole(st)|
  {
    if Blank(st.buf[0]) && k + 1 <= MAX_HEADER {
      var next := st.(buf := st.buf[1..]);
      BufferLeads(st, 1);
      PeekAgrees(next);
      if Peek(next).Ok? {
        PaddingFails(Peek(next).value, k + 1);
      }
    }
  }

  lemma {:induction false} OpeningFails(st: Stream)
    requires Proper(st) && |st.buf| >= 2 && Opened(st).Err?
    ensures Opened(st).error in {HeadersTooLarge, InvalidDelimiter, Cause(st.fault)}
  {
    var s1 := st.(buf := st.buf[2..]);
    PeekAgrees(s1);
    if Peek(s1).Ok? {
      ReadAgrees(Peek(s1).value, BLANK_LINE, MAX_HEADER);
    }
  }

  // Why nothing could be read after a delimiter.
  lemma {:induction false} DelimiterFails(st: Stream)
    requires Proper(st) && AfterDelimiter(st).Err?
    ensures var w, e := Whole(st), AfterDelimiter(st).error;
      && (|w| < 2 ==> e == Cause(st.fault))
      && (|w| >= 2 && w[..2] == [45, 45] ==> st.fault == Some(e))
      && e in {HeadersTooLarge, InvalidDelimiter, Cause(st.fault)}
  {
    PeekAgrees(st);
    if Peek(st).Ok? {
      var s1 := Peek(st).value;
      assert Whole(s1)[..2] == s1.buf[..2];
      if SkipPadding(s1, 0).Err? {
        PaddingFails(s1, 0);
      } else {
        var padding := PaddingOnly(s1, 0);
        if Opened(SkipPadding(s1, 0).value).Err? {
          OpeningFails(SkipPadding(s1, 0).value);
        }
      }
    }
  }

  // A complete part before others.
  lemma {:induction false} PartBefore(p: Part, others: seq<Part>, boundary: Bytes, tail: Bytes, last: Option<Part>)
    requires FairPart(p, boundary) && FairParts(others, boundary)
    ensures var parts := [p] + others;
      && FairParts(parts, boundary) && Yielded(parts, last) == [(p.header, p.content)] + Yielded(others, last)
      && Encode(parts, boundary, tail)
         == p.padding + [13, 10] + HeaderBlock(p.header) + (p.content + Separator(boundary) + Encode(others, boundary, tail))
  {
    var parts := [p] + others;
    assert parts[1..] == others;
    FirstPart(parts, boundary, tail);
  }

  // What the reader makes of the parts from here on, in terms of the body.
  ghost predicate Explains(st: Stream, boundary: Bytes, parts: seq<Part>, last: Option<Part>, tail: Bytes) {
    var r := PartsFrom(st, Separator(boundary));
    && FairParts(parts, boundary) && r.parts == Yielded(parts, last)
    && Whole(st) == Encode(parts, boundary, tail) && Follow(tail, last, r.status, st.fault, boundary)
  }

  lemma {:induction false} PartThenRest(st: Stream, boundary: Bytes, p: Part, next: Stream, after: Stream,
                                        parts: seq<Part>, last: Option<Part>, tail: Bytes)
    requires AfterDelimiter(st) == Ok((Header(p.header), next)) && CopyUntil(next, Separator(boundary)) == (p.content, Ok(after))
    requires FairPart(p, boundary) && after.fault == st.fault && Explains(after, boundary, parts, last, tail)
    requires Whole(st) == p.padding + [13, 10] + HeaderBlock(p.header) + Whole(next)
    requires Whole(next) == p.content + Separator(boundary) + Whole(after)
    ensures Explains(st, boundary, [p] + parts, last, tail)
  {
    PartAndRest(st, Separator(boundary), p.header, next, p.content, after);
    hide PartsFrom, AfterDelimiter, CopyUntil, Encode, Follow, FairPart, Yielded;
    PartBefore(p, parts, boundary, tail, last);
  }

  lemma {:induction false} PartBegun(st: Stream, boundary: Bytes, p: Part, next: Stream, e: Error)
    requires AfterDelimiter(st) == Ok((Header(p.header), next)) && CopyUntil(next, Separator(boundary)) == (p.content, Err(e))
    requires FairHeader(p.header) && GoodPadding(p.padding)
    requires Whole(st) == p.padding + [13, 10] + HeaderBlock(p.header) + Whole(next)
    requires !Contains(Whole(next), [13, 10, 45, 45] + boundary) && p.content <= Whole(next) && e == Cause(st.fault)
    ensures Explains(st, boundary, [], Some(p), Whole(st))
  {
    var lead, tail := p.padding + [13, 10] + HeaderBlock(p.header), Whole(st);
    assert PartsFrom(st, Separator(boundary)) == Parsed([(p.header, p.content)], Err(e));
    hide PartsFrom, AfterDelimiter, CopyUntil, FairHeader, GoodPadding, HeaderBlock;
    assert tail == lead + Whole(next) && tail[|lead|..] == Whole(next);
    assert Whole(next) == p.content + Whole(next)[|p.content|..];
    assert lead + p.content <= tail;
  }

  lemma {:induction false} PartsOnly(st: Stream, boundary: Bytes)
    returns (parts: seq<Part>, last: Option<Part>, tail: Bytes)
    requires Proper(st)
    ensures Explains(st, boundary, parts, last, tail)
    decreases |Whole(st)|
  {
    var t := Separator(boundary);
    var e := AfterDelimiter(st);
    parts, last, tail := [], None, Whole(st);
    if e.Err? {
      DelimiterFails(st);
    } else if e.value.0.Closing? {
      ClosingOnly(st);
    } else {
      var (event, next) := e.value;
      var padding := HeaderOnly(st);
      var (content, after) := CopyUntil(next, t);
      ContentOnly(next, boundary);
      assert t == [13, 10, 45, 45] + boundary;
      var p := Part(padding, event.raw, content);
      hide PartsFrom, AfterDelimiter, Encode, Follow, FairHeader, GoodPadding, Yielded, HeaderBlock, FairParts;
      if after.Ok? {
        var others;
        others, last, tail := PartsOnly(after.value, boundary);
        PartThenRest(st, boundary, p, next, after.value, others, last, tail);
        parts := [p] + others;
      } else {
        last := Some(p);
        PartBegun(st, boundary, p, next, after.error);
      }
    }
  }

  /** Whatever the reader yields, from any body and in any delivery, the body
      is a preamble and those parts, as the encoder writes them; if the reader
      succeeds, nothing but the closing delimiter and an epilogue follows; if
      it fails, the last part may be one whose delimiter never came, and the
      error is the one the body ended with, or one of the two of its own. */
  lemma {:induction false} OnlyEncodings(pieces: seq<Bytes>, fault: Option<Error>, boundary: Bytes)
    returns (lead: Bytes, parts: seq<Part>, last: Option<Part>, tail: Bytes)
    requires Proper(Stream(CRLF, pieces, fault))
    ensures var r := Parts(Stream(CRLF, pieces, fault), boundary);
      && FairParts(parts, boundary) && r.parts == Yielded(parts, last)
      && (r.parts != [] || r.status.Ok? ==>
            && [13, 10] + Flat(pieces) == lead + ([13, 10, 45, 45] + boundary) + Encode(parts, boundary, tail)
            && !Contains(lead, [13, 10, 45, 45] + boundary) && |lead| <= 16384
            && Follow(tail, last, r.status, fault, boundary))
      && (r.status.Err? ==> r.status.error in {HeadersTooLarge, InvalidDelimiter, Cause(fault)})
  {
    var st, t := Stream(CRLF, pieces, fault), Separator(boundary);
    assert t == [13, 10, 45, 45] + boundary;
    var r := ReadUntil(st, t, MAX_HEADER);
    lead, parts, last, tail := [], [], None, [];
    ReadAgrees(st, t, MAX_HEADER);
    if r.Ok? {
      var w := Whole(st);
      var i := Find(w, t);
      lead := w[..i];
      FoundDivides(w, t);
      parts, last, tail := PartsOnly(r.value.1, boundary);
    }
  }
}
