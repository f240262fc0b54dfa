/** From the connection to the parts: what the multipart reader gets is what
    the body reader's reads return, whatever their sizes. */
module BodyDelivery {
  import opened Common
  import opened Bytes
  import opened Chunked
  import T = ChunkedTheorems
  import E = ChunkedEncoding
  import M = Multipart
  import P = MultipartTheorems

  // The non-empty reads in turn, how they end, and the reader they leave.
  datatype Delivery = Delivery(pieces: seq<Bytes>, end: Outcome, last: Reader)

  // The k-th read asks for sizes(k) bytes.
  function Delivered(r: Reader, sizes: nat -> nat, k: nat): Delivery
    decreases r.limit - r.total
  {
    var (o, next) := Read(r, sizes(k));
    if o.Failed? || o.bytes == [] then Delivery([], o, next)
    else
      var rest := Delivered(next, sizes, k + 1);
      rest.(pieces := [o.bytes] + rest.pieces)
  }

  lemma {:induction false} FlatMore(b: Bytes, pieces: seq<Bytes>)
    ensures M.Flat([b] + pieces) == b + M.Flat(pieces)
  {
    assert ([b] + pieces)[1..] == pieces;
  }

  lemma {:induction false} DeliveredNext(r: Reader, sizes: nat -> nat, k: nat)
    ensures var (o, next) := Read(r, sizes(k)); var d := Delivered(r, sizes, k);
      if o.Failed? || o.bytes == [] then d == Delivery([], o, next)
      else
        var rest := Delivered(next, sizes, k + 1);
        d == rest.(pieces := [o.bytes] + rest.pieces)
  {
  }

  // A well-formed body within the limit is still to come.
  ghost predicate Whole(r: Reader, content: Bytes, end: Wire) {
    !r.broken && T.ToCome(r) == Ok((content, end)) && r.total + |content| <= r.limit
  }

  // A read of it returns some of it, and leaves the rest to come; or it returns none, at its end.
  lemma {:induction false} ReadOn(r: Reader, size: nat, content: Bytes, end: Wire)
    requires Whole(r, content, end) && size > 0
    ensures var (o, next) := Read(r, size);
      && o.Data? && next.limit == r.limit && next.total == r.total + |o.bytes|
      && o.bytes <= content && Whole(next, content[|o.bytes|..], end)
      && (o.bytes == [] ==> content == [] && next.wire == end)
  {
    var (o, next) := Read(r, size);
    T.ReadReturns(r, size);
    hide Read, T.ToCome;
    if o.bytes == [] {
      T.EndIsEnd(next);
      assert content[0..] == content;
    }
  }

  // The pieces make up the content, and the reader stopped at its end.
  ghost predicate Delivers(d: Delivery, content: Bytes, end: Wire) {
    && d.end == Data([]) && d.last.wire == end && M.Flat(d.pieces) == content
    && forall i | 0 <= i < |d.pieces| :: d.pieces[i] != []
  }

  lemma {:induction false} DeliversMore(d: Delivery, b: Bytes, rest: Bytes, end: Wire)
    requires Delivers(d, rest, end) && b != []
    ensures Delivers(d.(pieces := [b] + d.pieces), b + rest, end)
  {
    FlatMore(b, d.pieces);
  }

  /** A well-formed body within the limit is delivered whole, in pieces that
      are not empty, up to an end that the connection stands at exactly. */
  lemma {:induction false} DeliveredWhole(r: Reader, sizes: nat -> nat, k: nat, content: Bytes, end: Wire)
    requires Whole(r, content, end) && forall j :: sizes(j) > 0
    ensures Delivers(Delivered(r, sizes, k), content, end)
    decreases r.limit - r.total
  {
    hide Whole, Delivered, Delivers;
    var (o, next) := Read(r, sizes(k));
    ReadOn(r, sizes(k), content, end);
    DeliveredNext(r, sizes, k);
    hide Read;
    if o.bytes == [] {
      NothingDelivered(o, next, end);
    } else {
      var rest := content[|o.bytes|..];
      DeliveredWhole(next, sizes, k + 1, rest, end);
      DeliversMore(Delivered(next, sizes, k + 1), o.bytes, rest, end);
      assert content == o.bytes + rest;
    }
  }

  lemma {:induction false} NothingDelivered(o: Outcome, last: Reader, end: Wire)
    requires o == Data([]) && last.wire == end
    ensures Delivers(Delivery([], o, last), [], end)
  {
  }

  /** The parts of a request, end to end: for every multipart body, framed by
      a declared length or by chunks, within the limit, and for every sequence
      of read sizes, the reader yields exactly the parts that were encoded, and
      the connection then stands exactly past the body. */
  lemma {:induction false} PartsOfRequest(r: Reader, sizes: nat -> nat, preamble: Option<Bytes>, parts: seq<P.Part>,
                                          boundary: Bytes, epilogue: Bytes)
    requires P.GoodBoundary(boundary) && P.GoodPreamble(preamble, boundary)
    requires forall i | 0 <= i < |parts| :: P.GoodPart(parts[i], boundary)
    requires !r.broken && T.ToCome(r).Ok? && T.ToCome(r).value.0 == P.Body(preamble, parts, boundary, epilogue)
    requires r.total + |T.ToCome(r).value.0| <= r.limit && forall j :: sizes(j) > 0
    ensures var d := Delivered(r, sizes, 0);
      && M.Parts(M.Start(d.pieces), boundary) == M.Parsed(P.Shown(parts), Ok(()))
      && d.last.wire == T.ToCome(r).value.1
  {
    DeliveredWhole(r, sizes, 0, T.ToCome(r).value.0, T.ToCome(r).value.1);
    P.RoundTrip(preamble, parts, boundary, epilogue, Delivered(r, sizes, 0).pieces);
  }

  // A reader that has read nothing yet.
  function Fresh(wire: Wire, framing: Framing, limit: nat): Reader {
    Reader(wire, framing, false, 0, limit)
  }

  // The same for a chunked request, from its encoding.
  lemma {:induction false} ChunkedRequest(m: E.Message, rest: Bytes, reset: bool, limit: nat, sizes: nat -> nat,
                       preamble: Option<Bytes>, parts: seq<P.Part>, boundary: Bytes, epilogue: Bytes)
    requires E.Accepted(m)
    requires E.Content(m.chunks) == P.Body(preamble, parts, boundary, epilogue)
    requires P.GoodBoundary(boundary) && P.GoodPreamble(preamble, boundary)
    requires forall i | 0 <= i < |parts| :: P.GoodPart(parts[i], boundary)
    requires |E.Content(m.chunks)| <= limit && forall j :: sizes(j) > 0
    ensures var r := Fresh(Wire(E.Encode(m) + rest, reset), Chunks(0, false), limit);
      var d := Delivered(r, sizes, 0);
      && M.Parts(M.Start(d.pieces), boundary) == M.Parsed(P.Shown(parts), Ok(()))
      && d.last.wire == Wire(rest, reset)
  {
    var r := Fresh(Wire(E.Encode(m) + rest, reset), Chunks(0, false), limit);
    E.RoundTrip(m, rest, reset);
    hide T.Body, E.Encode, P.Body, M.Parts, Delivered;
    PartsOfRequest(r, sizes, preamble, parts, boundary, epilogue);
  }

  // And for one of declared length.
  lemma {:induction false} PlainRequest(rest: Bytes, reset: bool, limit: nat, sizes: nat -> nat,
                     preamble: Option<Bytes>, parts: seq<P.Part>, boundary: Bytes, epilogue: Bytes)
    requires P.GoodBoundary(boundary) && P.GoodPreamble(preamble, boundary)
    requires forall i | 0 <= i < |parts| :: P.GoodPart(parts[i], boundary)
    requires |P.Body(preamble, parts, boundary, epilogue)| <= limit && forall j :: sizes(j) > 0
    ensures var body := P.Body(preamble, parts, boundary, epilogue);
      var r := Fresh(Wire(body + rest, reset), Plain(|body|), limit);
      var d := Delivered(r, sizes, 0);
      && M.Parts(M.Start(d.pieces), boundary) == M.Parsed(P.Shown(parts), Ok(()))
      && d.last.wire == Wire(rest, reset)
  {
    var body := P.Body(preamble, parts, boundary, epilogue);
    var r := Fresh(Wire(body + rest, reset), Plain(|body|), limit);
    assert (body + rest)[..|body|] == body && (body + rest)[|body|..] == rest;
    hide P.Body, M.Parts, Delivered;
    PartsOfRequest(r, sizes, preamble, parts, boundary, epilogue);
  }
}
