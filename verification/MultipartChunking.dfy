/** For every body, well formed or not: what the multipart reader makes of it
    depends on how it was cut into reads only by the size limit on headers. The
    deliveries of one body are ordered by how far they get, from the one byte
    by byte to the one at once. */
module MultipartChunking {
  import opened Common
  import opened Bytes
  import opened Multipart
  import opened MultipartTheorems

  // Two deliveries of one body.
  ghost predicate Same(s: Stream, t: Stream) {
    Proper(s) && Proper(t) && Whole(s) == Whole(t) && s.fault == t.fault
  }

  predicate TooLarge<T>(r: Result<T, Error>) {
    r.Err? && r.error == HeadersTooLarge
  }

  lemma {:induction false} CopySame(s: Stream, t: Stream, token: Bytes)
    requires Same(s, t) && |token| > 1
    ensures var r, q := CopyUntil(s, token), CopyUntil(t, token);
      && r.0 == q.0
      && if r.1.Err? then r.1 == q.1 else q.1.Ok? && Same(r.1.value, q.1.value)
  {
    CopyAgrees(s, token);
    CopyAgrees(t, token);
  }

  lemma {:induction false} PeekSame(s: Stream, t: Stream)
    requires Same(s, t)
    ensures if Peek(s).Err? then Peek(s) == Peek(t) else Peek(t).Ok? && Same(Peek(s).value, Peek(t).value)
    ensures Peek(s).Ok? ==> Peek(s).value.buf[..2] == Peek(t).value.buf[..2]
  {
    PeekAgrees(s);
    PeekAgrees(t);
    if Peek(s).Ok? {
      var w := Whole(s);
      assert Peek(s).value.buf[..2] == w[..2] == Peek(t).value.buf[..2];
    }
  }

  lemma {:induction false} Dropped(s: Stream, t: Stream, n: nat)
    requires Same(s, t) && n <= |s.buf| && n <= |t.buf|
    ensures Same(s.(buf := s.buf[n..]), t.(buf := t.buf[n..]))
  {
    assert Whole(s)[n..] == s.buf[n..] + Flat(s.pieces);
    assert Whole(t)[n..] == t.buf[n..] + Flat(t.pieces);
  }

  lemma {:induction false} PaddingSame(s: Stream, t: Stream, k: nat)
    requires Same(s, t) && |s.buf| >= 2 && |t.buf| >= 2
    ensures var r, q := SkipPadding(s, k), SkipPadding(t, k);
      if r.Err? then r == q else q.Ok? && Same(r.value, q.value)
    decreases |Whole(s)|
  {
    assert s.buf[0] == Whole(s)[0] == t.buf[0];
    if Blank(s.buf[0]) && k + 1 <= MAX_HEADER {
      var s1, t1 := s.(buf := s.buf[1..]), t.(buf := t.buf[1..]);
      Dropped(s, t, 1);
      PeekSame(s1, t1);
      assert Whole(s)[1..] == Whole(s1);
      if Peek(s1).Ok? {
        PaddingSame(Peek(s1).value, Peek(t1).value, k + 1);
      }
    }
  }

  // ----- Deliveries at once and byte by byte -----

  // A delivery byte by byte: little is buffered, and the rest comes in single bytes.
  predicate Drip(st: Stream) {
    |st.buf| <= MAX_HEADER && forall i | 0 <= i < |st.pieces| :: |st.pieces[i]| == 1
  }

  // What is left of a delivery at once is at once, and of one byte by byte is byte by byte.
  ghost predicate Kept(st: Stream, next: Stream) {
    (st.pieces == [] ==> next.pieces == []) && (Drip(st) ==> Drip(next))
  }

  lemma {:induction false} PeekKept(st: Stream)
    requires Peek(st).Ok?
    ensures Kept(st, Peek(st).value)
    decreases |st.pieces|
  {
    if |st.buf| < 2 {
      PeekKept(Fill(st).value);
    }
  }

  lemma {:induction false} PaddingKept(st: Stream, k: nat)
    requires |st.buf| >= 2 && SkipPadding(st, k).Ok?
    ensures Kept(st, SkipPadding(st, k).value)
    decreases |Whole(st)|
  {
    if Blank(st.buf[0]) {
      var next := st.(buf := st.buf[1..]);
      assert Whole(st)[1..] == Whole(next);
      PeekKept(next);
      PaddingKept(Peek(next).value, k + 1);
    }
  }

  // Byte by byte, a read succeeds only if the block fits with all of its token but one byte.
  lemma {:induction false} DripRead(st: Stream, token: Bytes, limit: nat)
    requires |token| > 0 && limit <= MAX_HEADER && ReadUntil(st, token, limit).Ok?
    requires |st.buf| <= limit + 1 && forall i | 0 <= i < |st.pieces| :: |st.pieces[i]| == 1
    ensures Find(Whole(st), token) + |token| - 1 <= limit && Drip(ReadUntil(st, token, limit).value.1)
    decreases |st.pieces|
  {
    if Find(st.buf, token) >= 0 {
      FoundStays(st.buf, Flat(st.pieces), token);
    } else {
      DripRead(Fill(st).value, token, limit);
    }
  }

  lemma {:induction false} AtOnceRead(st: Stream, token: Bytes, limit: nat)
    requires |token| > 0 && st.pieces == []
    ensures ReadUntil(st, token, limit).Ok? <==> 0 <= Find(Whole(st), token) <= limit
    ensures ReadUntil(st, token, limit).Ok? ==> ReadUntil(st, token, limit).value.1.pieces == []
  {
    assert Whole(st) == st.buf;
  }

  lemma {:induction false} AtOnceCopy(st: Stream, token: Bytes)
    requires |token| > 1 && st.pieces == [] && CopyUntil(st, token).1.Ok?
    ensures CopyUntil(st, token).1.value.pieces == []
  {
  }

  lemma {:induction false} DripCopy(st: Stream, token: Bytes)
    requires |token| > 1 && CopyUntil(st, token).1.Ok?
    requires forall i | 0 <= i < |st.pieces| :: |st.pieces[i]| == 1
    ensures var next := CopyUntil(st, token).1.value;
      && (|next.buf| == 0 || |next.buf| <= |st.buf|)
      && forall i | 0 <= i < |next.pieces| :: |next.pieces[i]| == 1
    decreases |st.pieces|
  {
    if Find(st.buf, token) < 0 {
      DripOn(st, token);
    }
  }

  // Past its first buffer, a copy byte by byte holds no more than a token.
  lemma {:induction false} DripOn(st: Stream, token: Bytes)
    requires |token| > 1 && CopyUntil(st, token).1.Ok? && Find(st.buf, token) < 0
    requires forall i | 0 <= i < |st.pieces| :: |st.pieces[i]| == 1
    ensures var next := CopyUntil(st, token).1.value;
      next.buf == [] && forall i | 0 <= i < |next.pieces| :: |next.pieces[i]| == 1
    decreases |st.pieces|
  {
    var cut := if |st.buf| > |token| - 1 then |st.buf| - (|token| - 1) else 0;
    var next := Fill(st.(buf := st.buf[cut..])).value;
    if Find(next.buf, token) < 0 {
      DripOn(next, token);
    }
  }

  lemma {:induction false} CopyKept(st: Stream, token: Bytes)
    requires |token| > 1 && CopyUntil(st, token).1.Ok?
    ensures Kept(st, CopyUntil(st, token).1.value)
  {
    if st.pieces == [] {
      AtOnceCopy(st, token);
    }
    if Drip(st) {
      DripCopy(st, token);
    }
  }

  // ----- The order of deliveries -----

  /** t gets no farther than s in one body: s is the delivery at once, or t the
      one byte by byte. */
  ghost predicate Behind(t: Stream, s: Stream) {
    Same(t, s) && (s.pieces == [] || Drip(t))
  }

  // Equal, unless the first ran into the limit.
  ghost predicate BehindEvent(r: Result<(Event, Stream), Error>, q: Result<(Event, Stream), Error>) {
    || TooLarge(r)
    || (r.Err? && r == q)
    || (r.Ok? && q.Ok? && r.value.0 == q.value.0 && (r.value.0.Header? ==> Behind(r.value.1, q.value.1)))
  }

  lemma {:induction false} ReadBehind(t: Stream, s: Stream, token: Bytes)
    requires Behind(t, s) && |token| > 0
    ensures var r, q := ReadUntil(t, token, MAX_HEADER), ReadUntil(s, token, MAX_HEADER);
      || TooLarge(r)
      || (r.Err? && r == q)
      || (r.Ok? && q.Ok? && r.value.0 == q.value.0 && Behind(r.value.1, q.value.1))
  {
    ReadAgrees(t, token, MAX_HEADER);
    ReadAgrees(s, token, MAX_HEADER);
    if ReadUntil(t, token, MAX_HEADER).Ok? {
      if s.pieces == [] {
        AtOnceRead(s, token, MAX_HEADER);
      } else {
        DripRead(t, token, MAX_HEADER);
      }
    }
  }

  lemma {:induction false} PeekBehind(t: Stream, s: Stream)
    requires Behind(t, s)
    ensures if Peek(t).Err? then Peek(t) == Peek(s) else Peek(s).Ok? && Behind(Peek(t).value, Peek(s).value)
    ensures Peek(t).Ok? ==> Peek(t).value.buf[..2] == Peek(s).value.buf[..2]
  {
    PeekSame(t, s);
    if Peek(t).Ok? {
      PeekKept(t);
      PeekKept(s);
    }
  }

  lemma {:induction false} OpenedBehind(t: Stream, s: Stream)
    requires Behind(t, s) && |t.buf| >= 2 && |s.buf| >= 2
    ensures BehindEvent(Opened(t), Opened(s))
  {
    assert t.buf[..2] == Whole(t)[..2] == s.buf[..2];
    Dropped(t, s, 2);
    var t1, s1 := t.(buf := t.buf[2..]), s.(buf := s.buf[2..]);
    PeekBehind(t1, s1);
    if Peek(t1).Ok? {
      var t2, s2 := Peek(t1).value, Peek(s1).value;
      Dropped(t2, s2, 2);
      ReadBehind(t2, s2, BLANK_LINE);
    }
  }

  lemma {:induction false} DelimiterBehind(t: Stream, s: Stream)
    requires Behind(t, s)
    ensures BehindEvent(AfterDelimiter(t), AfterDelimiter(s))
  {
    PeekBehind(t, s);
    if Peek(t).Ok? {
      var t1, s1 := Peek(t).value, Peek(s).value;
      PaddingSame(t1, s1, 0);
      if SkipPadding(t1, 0).Ok? {
        PaddingKept(t1, 0);
        PaddingKept(s1, 0);
        OpenedBehind(SkipPadding(t1, 0).value, SkipPadding(s1, 0).value);
      }
    }
  }

  // The second reading, or a part of it that the limit cut short.
  predicate UpTo(r: Parsed, q: Parsed) {
    r == q || (TooLarge(r.status) && r.parts <= q.parts)
  }

  lemma {:induction false} PartsBehind(t: Stream, s: Stream, separator: Bytes)
    requires Behind(t, s) && |separator| > 1
    ensures UpTo(PartsFrom(t, separator), PartsFrom(s, separator))
    decreases |Whole(t)|
  {
    DelimiterBehind(t, s);
    var r, q := AfterDelimiter(t), AfterDelimiter(s);
    if r.Ok? && r.value.0.Header? {
      CopySame(r.value.1, q.value.1, separator);
      var c, d := CopyUntil(r.value.1, separator), CopyUntil(q.value.1, separator);
      if c.1.Ok? {
        CopyKept(r.value.1, separator);
        CopyKept(q.value.1, separator);
        PartsBehind(c.1.value, d.1.value, separator);
        var first := [(r.value.0.raw, c.0)];
        assert PartsFrom(t, separator).parts == first + PartsFrom(c.1.value, separator).parts;
        assert PartsFrom(s, separator).parts == first + PartsFrom(d.1.value, separator).parts;
      }
    }
  }

  lemma {:induction false} ReadingBehind(t: Stream, s: Stream, boundary: Bytes)
    requires Behind(t, s)
    ensures UpTo(Parts(t, boundary), Parts(s, boundary))
  {
    var separator := Separator(boundary);
    ReadBehind(t, s, separator);
    var r, q := ReadUntil(t, separator, MAX_HEADER), ReadUntil(s, separator, MAX_HEADER);
    if r.Ok? {
      PartsBehind(r.value.1, q.value.1, separator);
    }
  }

  // ----- Every delivery is between the two -----

  // The pieces deliver the body, then the fault.
  ghost predicate Delivers(pieces: seq<Bytes>, body: Bytes) {
    Flat(pieces) == body && forall i | 0 <= i < |pieces| :: pieces[i] != []
  }

  function Reading(pieces: seq<Bytes>, fault: Option<Error>, boundary: Bytes): Parsed {
    Parts(Stream(CRLF, pieces, fault), boundary)
  }

  function AtOnce(body: Bytes): seq<Bytes> {
    if body == [] then [] else [body]
  }

  function ByteByByte(body: Bytes): seq<Bytes> {
    seq(|body|, i requires 0 <= i < |body| => [body[i]])
  }

  lemma {:induction false} BytesDeliver(body: Bytes)
    ensures Delivers(ByteByByte(body), body)
  {
    if body != [] {
      BytesDeliver(body[1..]);
      assert ByteByByte(body)[1..] == ByteByByte(body[1..]);
    }
  }

  // The first search of the reader finds the body at once in its buffer.
  lemma {:induction false} AtOnceIsBuffered(body: Bytes, fault: Option<Error>, boundary: Bytes)
    ensures Reading(AtOnce(body), fault, boundary) == Parts(Stream(CRLF + body, [], fault), boundary)
  {
    var separator := Separator(boundary);
    if body == [] {
      assert CRLF + body == CRLF;
    } else {
      var s := Stream(CRLF, [body], fault);
      assert Find(s.buf, separator) == -1;
      assert Fill(s).value == Stream(CRLF + body, [], fault);
    }
  }

  /** Every delivery of a body gets at least as far as the one byte by byte,
      and at most as far as the one at once: up to where the header limit
      stops the lesser of them, the parts are the same. */
  lemma {:induction false} BetweenTheTwo(pieces: seq<Bytes>, body: Bytes, fault: Option<Error>, boundary: Bytes)
    requires Delivers(pieces, body)
    ensures UpTo(Reading(ByteByByte(body), fault, boundary), Reading(pieces, fault, boundary))
    ensures UpTo(Reading(pieces, fault, boundary), Reading(AtOnce(body), fault, boundary))
  {
    BytesDeliver(body);
    AtOnceIsBuffered(body, fault, boundary);
    assert Flat([]) == [];
    ReadingBehind(Stream(CRLF, ByteByByte(body), fault), Stream(CRLF, pieces, fault), boundary);
    ReadingBehind(Stream(CRLF, pieces, fault), Stream(CRLF + body, [], fault), boundary);
  }

  /** Any two deliveries of a body give the same parts with the same end,
      except that one which runs into the header limit stops there, having
      yielded a prefix of the same parts. */
  lemma {:induction false} CutsDoNotMatter(pieces: seq<Bytes>, others: seq<Bytes>, fault: Option<Error>,
                                           boundary: Bytes)
    requires Delivers(pieces, Flat(others)) && Delivers(others, Flat(others))
    ensures var r, q := Reading(pieces, fault, boundary), Reading(others, fault, boundary);
      UpTo(r, q) || UpTo(q, r)
  {
    BetweenTheTwo(pieces, Flat(others), fault, boundary);
    BetweenTheTwo(others, Flat(others), fault, boundary);
  }

  /** The cuts make no difference at all if and only if the delivery byte by
      byte and the one at once read the same. */
  lemma {:induction false} CutsExact(body: Bytes, fault: Option<Error>, boundary: Bytes)
    ensures Reading(ByteByByte(body), fault, boundary) == Reading(AtOnce(body), fault, boundary) <==>
      forall pieces | Delivers(pieces, body) :: Reading(pieces, fault, boundary) == Reading(AtOnce(body), fault, boundary)
  {
    BytesDeliver(body);
    if Reading(ByteByByte(body), fault, boundary) == Reading(AtOnce(body), fault, boundary) {
      forall pieces | Delivers(pieces, body)
        ensures Reading(pieces, fault, boundary) == Reading(AtOnce(body), fault, boundary)
      {
        BetweenTheTwo(pieces, body, fault, boundary);
      }
    }
  }
}
