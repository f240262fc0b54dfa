/** The streaming multipart reader, as functions of what it has buffered and
    of what its body reader will still hand out.

    The body arrives in pieces of any size. A stream's whole is its buffer
    followed by all pieces to come, and every result below is stated about
    the whole, so it cannot depend on where the pieces were cut. */
module Multipart {
  import opened Common
  import opened Bytes

  const MAX_HEADER: nat := 16384

  // BodyError is whatever the body reader raised (413, or the client left).
  datatype Error = EndedEarly | HeadersTooLarge | InvalidDelimiter | BodyError(status: nat)

  /** pieces: what successive reads of the body return, none of them empty.
      fault: what the read after the last one raises; without it that read
      returns no bytes, the end of the body. */
  datatype Stream = Stream(buf: Bytes, pieces: seq<Bytes>, fault: Option<Error>)

  function Flat(pieces: seq<Bytes>): Bytes {
    if pieces == [] then [] else pieces[0] + Flat(pieces[1..])
  }

  function Whole(st: Stream): Bytes {
    st.buf + Flat(st.pieces)
  }

  predicate Proper(st: Stream) {
    forall i | 0 <= i < |st.pieces| :: st.pieces[i] != []
  }

  // What a reader is left with: the same body, moved on.
  ghost predicate Follows(st: Stream, next: Stream) {
    next.fault == st.fault && (Proper(st) ==> Proper(next))
  }

  function EndError(st: Stream): Error {
    if st.fault.Some? then st.fault.value else EndedEarly
  }

  function Fill(st: Stream): (r: Result<Stream, Error>)
    ensures r.Ok? ==> Follows(st, r.value) && Whole(r.value) == Whole(st) && |r.value.pieces| < |st.pieces|
    ensures r.Ok? ==> |r.value.buf| > |st.buf|
    ensures Proper(st) ==> (r.Ok? <==> st.pieces != [])
  {
    if st.pieces == [] || st.pieces[0] == [] then Err(EndError(st))
    else
      assert st.buf + st.pieces[0] + Flat(st.pieces[1..]) == Whole(st);
      Ok(Stream(st.buf + st.pieces[0], st.pieces[1..], st.fault))
  }

  function ReadUntil(st: Stream, token: Bytes, limit: nat): (r: Result<(Bytes, Stream), Error>)
    requires |token| > 0
    ensures r.Ok? ==> Follows(st, r.value.1) && |Whole(r.value.1)| < |Whole(st)|
    decreases |st.pieces|
  {
    var i := Find(st.buf, token);
    if i >= 0 then
      if i > limit then Err(HeadersTooLarge)
      else
        assert Whole(st)[i + |token|..] == st.buf[i + |token|..] + Flat(st.pieces);
        Ok((st.buf[..i], st.(buf := st.buf[i + |token|..])))
    else if |st.buf| > limit then Err(HeadersTooLarge)
    else match Fill(st)
      case Err(e) => Err(e)
      case Ok(next) => ReadUntil(next, token, limit)
  }

  /** Copies to the caller everything before the token. What was written so
      far is returned with the outcome. */
  function CopyUntil(st: Stream, token: Bytes): (r: (Bytes, Result<Stream, Error>))
    requires |token| > 1
    ensures r.1.Ok? ==> Follows(st, r.1.value) && |Whole(r.1.value)| < |Whole(st)|
    decreases |st.pieces|
  {
    var i := Find(st.buf, token);
    if i >= 0 then
      assert Whole(st)[i + |token|..] == st.buf[i + |token|..] + Flat(st.pieces);
      (st.buf[..i], Ok(st.(buf := st.buf[i + |token|..])))
    else
      var cut := if |st.buf| > |token| - 1 then |st.buf| - (|token| - 1) else 0;
      match Fill(st.(buf := st.buf[cut..]))
      case Err(e) => (st.buf[..cut], Err(e))
      case Ok(next) =>
        assert |Whole(next)| <= |Whole(st)|;
        var rest := CopyUntil(next, token);
        (st.buf[..cut] + rest.0, rest.1)
  }

  // Fills until two bytes are there to look at.
  function Peek(st: Stream): (r: Result<Stream, Error>)
    ensures r.Ok? ==> Follows(st, r.value) && Whole(r.value) == Whole(st) && |r.value.buf| >= 2
    decreases |st.pieces|
  {
    if |st.buf| >= 2 then Ok(st)
    else match Fill(st)
      case Err(e) => Err(e)
      case Ok(next) => Peek(next)
  }

  predicate Blank(b: Byte) { b == SPACE || b == TAB }

  // Skips the whitespace that may pad a delimiter's line.
  function SkipPadding(st: Stream, skipped: nat): (r: Result<Stream, Error>)
    requires |st.buf| >= 2
    ensures r.Ok? ==> Follows(st, r.value) && |r.value.buf| >= 2 && |Whole(r.value)| <= |Whole(st)|
    decreases |Whole(st)|
  {
    if !Blank(st.buf[0]) then Ok(st)
    else if skipped + 1 > MAX_HEADER then Err(InvalidDelimiter)
    else
      assert Whole(st)[1..] == st.buf[1..] + Flat(st.pieces);
      match Peek(st.(buf := st.buf[1..]))
      case Err(e) => Err(e)
      case Ok(next) => SkipPadding(next, skipped + 1)
  }

  datatype Event = Closing | Header(raw: Bytes)

  const DASHES: Bytes := [DASH, DASH]
  const BLANK_LINE: Bytes := [CR, LF, CR, LF]

  function Opened(st: Stream): (r: Result<(Event, Stream), Error>)
    requires |st.buf| >= 2
    ensures r.Ok? ==> r.value.0.Header? && Follows(st, r.value.1) && |Whole(r.value.1)| < |Whole(st)|
  {
    assert Whole(st)[2..] == st.buf[2..] + Flat(st.pieces);
    if st.buf[..2] != CRLF then Err(InvalidDelimiter)
    else match Peek(st.(buf := st.buf[2..]))
      case Err(e) => Err(e)
      case Ok(next) =>
        if next.buf[..2] == CRLF then
          assert Whole(next)[2..] == next.buf[2..] + Flat(next.pieces);
          Ok((Header([]), next.(buf := next.buf[2..])))
        else match ReadUntil(next, BLANK_LINE, MAX_HEADER)
          case Err(e) => Err(e)
          case Ok((raw, after)) => Ok((Header(raw), after))
  }

  // What follows a delimiter: the end of the body, or a part's header block.
  function AfterDelimiter(st: Stream): (r: Result<(Event, Stream), Error>)
    ensures r.Ok? && r.value.0.Header? ==> Follows(st, r.value.1) && |Whole(r.value.1)| < |Whole(st)|
  {
    match Peek(st)
    case Err(e) => Err(e)
    case Ok(s1) =>
      if s1.buf[..2] == DASHES then
        // the epilogue is read to the end of the body and dropped
        if s1.fault.Some? then Err(s1.fault.value) else Ok((Closing, s1))
      else match SkipPadding(s1, 0)
        case Err(e) => Err(e)
        case Ok(s2) => Opened(s2)
  }

  datatype Parsed = Parsed(parts: seq<(Bytes, Bytes)>, status: Result<(), Error>)

  // The parts from just after a delimiter on, each copied before the next is read.
  function PartsFrom(st: Stream, separator: Bytes): (r: Parsed)
    requires |separator| > 1
    decreases |Whole(st)|
  {
    match AfterDelimiter(st)
    case Err(e) => Parsed([], Err(e))
    case Ok((Closing, _)) => Parsed([], Ok(()))
    case Ok((Header(raw), next)) =>
      var copied := CopyUntil(next, separator);
      match copied.1
      case Err(e) => Parsed([(raw, copied.0)], Err(e))
      case Ok(after) =>
        var rest := PartsFrom(after, separator);
        Parsed([(raw, copied.0)] + rest.parts, rest.status)
  }

  function Separator(boundary: Bytes): Bytes {
    CRLF + DASHES + boundary
  }

  // A reader of the given pieces: a line break stands before the body.
  function Start(pieces: seq<Bytes>): Stream {
    Stream(CRLF, pieces, None)
  }

  function Parts(st: Stream, boundary: Bytes): (r: Parsed) {
    match ReadUntil(st, Separator(boundary), MAX_HEADER)
    case Err(e) => Parsed([], Err(e))
    case Ok((_, next)) => PartsFrom(next, Separator(boundary))
  }
}
