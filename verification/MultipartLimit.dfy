/** The header limit, exactly: which bodies are read the same however they are
    delivered. */
module MultipartLimit {
  import opened Common
  import opened Bytes
  import opened Multipart
  import opened MultipartTheorems
  import opened MultipartChunking

  // ----- One read -----

  // The block before the token is past the limit, or fits it with all of its token but one byte.
  predicate OffLimit(w: Bytes, token: Bytes, limit: nat) {
    var i := Find(w, token);
    !(0 <= i <= limit < i + |token| - 1)
  }

  ghost predicate SameRead(s: Stream, t: Stream, token: Bytes, limit: nat)
    requires |token| > 0
  {
    var r, q := ReadUntil(s, token, limit), ReadUntil(t, token, limit);
    if r.Err? then r == q else q.Ok? && r.value.0 == q.value.0 && Same(r.value.1, q.value.1)
  }

  lemma {:induction false} ReadEqual(s: Stream, t: Stream, token: Bytes, limit: nat)
    requires Same(s, t) && |token| > 0 && OffLimit(Whole(s), token, limit)
    ensures SameRead(s, t, token, limit)
  {
    ReadAgrees(s, token, limit);
    ReadAgrees(t, token, limit);
  }

  /** A bounded read has the same outcome for every delivery of what is to be
      read if and only if the block is off the limit. */
  lemma {:induction false} ReadExact(w: Bytes, token: Bytes, limit: nat, fault: Option<Error>)
    requires |token| > 1
    ensures OffLimit(w, token, limit) <==>
      forall s, t | Same(s, t) && Whole(s) == w && s.fault == fault :: SameRead(s, t, token, limit)
  {
    if OffLimit(w, token, limit) {
      forall s, t | Same(s, t) && Whole(s) == w && s.fault == fault
        ensures SameRead(s, t, token, limit)
      {
        ReadEqual(s, t, token, limit);
      }
    } else {
      LimitZone(w, token, limit, fault);
      var s, t := Stream(w, [], fault), Stream(w[..limit + 1], [w[limit + 1..]], fault);
      assert Whole(s) == w && Same(s, t) && !SameRead(s, t, token, limit);
    }
  }

  // ----- All of a body -----

  // The header block that follows, if there is one to be read, is off the limit.
  predicate BlockOffLimit(st: Stream)
    requires |st.buf| >= 2
  {
    st.buf[..2] == CRLF ==>
      match Peek(st.(buf := st.buf[2..]))
      case Err(_) => true
      case Ok(next) => next.buf[..2] == CRLF || OffLimit(Whole(next), BLANK_LINE, MAX_HEADER)
  }

  predicate HeaderOffLimit(st: Stream) {
    match Peek(st)
    case Err(_) => true
    case Ok(s1) =>
      s1.buf[..2] == DASHES ||
      match SkipPadding(s1, 0)
      case Err(_) => true
      case Ok(s2) => BlockOffLimit(s2)
  }

  // So are all header blocks from here on.
  predicate PartsOffLimit(st: Stream, separator: Bytes)
    requires |separator| > 1
    decreases |Whole(st)|
  {
    && HeaderOffLimit(st)
    && match AfterDelimiter(st)
       case Ok((Header(_), next)) =>
         (match CopyUntil(next, separator).1
          case Ok(after) => PartsOffLimit(after, separator)
          case Err(_) => true)
       case _ => true
  }

  /** The preamble is off the limit and so is every header block; or it is not,
      but even at once the reader runs into the limit before the first part. */
  predicate Steady(body: Bytes, fault: Option<Error>, boundary: Bytes) {
    var s, separator := Stream(CRLF + body, [], fault), Separator(boundary);
    if OffLimit(CRLF + body, separator, MAX_HEADER) then
      match ReadUntil(s, separator, MAX_HEADER)
      case Ok((_, next)) => PartsOffLimit(next, separator)
      case Err(_) => true
    else Parts(s, boundary) == Parsed([], Err(HeadersTooLarge))
  }

  // t is byte by byte what s is at once.
  ghost predicate Extremes(t: Stream, s: Stream) {
    Same(t, s) && s.pieces == [] && Drip(t)
  }

  ghost predicate EqualEvent(r: Result<(Event, Stream), Error>, q: Result<(Event, Stream), Error>) {
    if r.Err? then r == q
    else q.Ok? && r.value.0 == q.value.0 && (r.value.0.Header? ==> Extremes(r.value.1, q.value.1))
  }

  // In the zone, the delivery at once reads the block and the one byte by byte is refused.
  ghost predicate SplitEvent(r: Result<(Event, Stream), Error>, q: Result<(Event, Stream), Error>) {
    TooLarge(r) && q.Ok? && q.value.0.Header?
  }

  lemma {:induction false} ReadSplits(t: Stream, s: Stream, token: Bytes)
    requires Extremes(t, s) && |token| > 0
    ensures var r, q := ReadUntil(t, token, MAX_HEADER), ReadUntil(s, token, MAX_HEADER);
      if OffLimit(Whole(s), token, MAX_HEADER)
      then if r.Err? then r == q else q.Ok? && r.value.0 == q.value.0 && Extremes(r.value.1, q.value.1)
      else TooLarge(r) && q.Ok?
  {
    var r := ReadUntil(t, token, MAX_HEADER);
    AtOnceRead(s, token, MAX_HEADER);
    ReadAgrees(t, token, MAX_HEADER);
    if r.Ok? {
      DripRead(t, token, MAX_HEADER);
    }
    if OffLimit(Whole(s), token, MAX_HEADER) {
      ReadEqual(t, s, token, MAX_HEADER);
    }
  }

  lemma {:induction false} PeekExtremes(t: Stream, s: Stream)
    requires Extremes(t, s)
    ensures if Peek(t).Err? then Peek(t) == Peek(s) else Peek(s).Ok? && Extremes(Peek(t).value, Peek(s).value)
    ensures Peek(t).Ok? ==> Peek(t).value.buf[..2] == Peek(s).value.buf[..2]
  {
    PeekSame(t, s);
    if Peek(t).Ok? {
      PeekKept(t);
      PeekKept(s);
    }
  }

  lemma {:induction false} OpenedSplits(t: Stream, s: Stream)
    requires Extremes(t, s) && |t.buf| >= 2 && |s.buf| >= 2
    ensures if BlockOffLimit(s) then EqualEvent(Opened(t), Opened(s)) else SplitEvent(Opened(t), Opened(s))
  {
    assert t.buf[..2] == Whole(t)[..2] == s.buf[..2];
    Dropped(t, s, 2);
    var t1, s1 := t.(buf := t.buf[2..]), s.(buf := s.buf[2..]);
    PeekExtremes(t1, s1);
    if t.buf[..2] == CRLF && Peek(t1).Ok? {
      var t2, s2 := Peek(t1).value, Peek(s1).value;
      Dropped(t2, s2, 2);
      ReadSplits(t2, s2, BLANK_LINE);
    }
  }

  lemma {:induction false} DelimiterSplits(t: Stream, s: Stream)
    requires Extremes(t, s)
    ensures var r, q := AfterDelimiter(t), AfterDelimiter(s);
      if HeaderOffLimit(s) then EqualEvent(r, q) else SplitEvent(r, q)
  {
    PeekExtremes(t, s);
    if Peek(t).Ok? {
      var t1, s1 := Peek(t).value, Peek(s).value;
      PaddingSame(t1, s1, 0);
      if SkipPadding(t1, 0).Ok? {
        PaddingKept(t1, 0);
        PaddingKept(s1, 0);
        OpenedSplits(SkipPadding(t1, 0).value, SkipPadding(s1, 0).value);
      }
    }
  }

  lemma {:induction false} PartsSplit(t: Stream, s: Stream, separator: Bytes)
    requires Extremes(t, s) && |separator| > 1
    ensures PartsOffLimit(s, separator) <==> PartsFrom(t, separator) == PartsFrom(s, separator)
    decreases |Whole(s)|
  {
    DelimiterSplits(t, s);
    var r, q := AfterDelimiter(t), AfterDelimiter(s);
    if HeaderOffLimit(s) && r.Ok? && r.value.0.Header? {
      CopySame(r.value.1, q.value.1, separator);
      var c, d := CopyUntil(r.value.1, separator), CopyUntil(q.value.1, separator);
      if c.1.Ok? {
        CopyKept(r.value.1, separator);
        CopyKept(q.value.1, separator);
        PartsSplit(c.1.value, d.1.value, separator);
        assert PartsFrom(t, separator).parts[1..] == PartsFrom(c.1.value, separator).parts;
        assert PartsFrom(s, separator).parts[1..] == PartsFrom(d.1.value, separator).parts;
      }
    }
  }

  /** However a body is delivered, the same parts come out with the same end,
      if and only if the body is steady. */
  lemma {:induction false} LimitExact(body: Bytes, fault: Option<Error>, boundary: Bytes)
    ensures Steady(body, fault, boundary) <==>
      forall pieces | Delivers(pieces, body) :: Reading(pieces, fault, boundary) == Reading(AtOnce(body), fault, boundary)
  {
    var t, s := Stream(CRLF, ByteByByte(body), fault), Stream(CRLF + body, [], fault);
    var separator := Separator(boundary);
    CutsExact(body, fault, boundary);
    AtOnceIsBuffered(body, fault, boundary);
    BytesDeliver(body);
    assert Flat([]) == [] && Whole(s) == CRLF + body;
    ReadSplits(t, s, separator);
    var r, q := ReadUntil(t, separator, MAX_HEADER), ReadUntil(s, separator, MAX_HEADER);
    if r.Ok? {
      PartsSplit(r.value.1, q.value.1, separator);
    }
  }
}
