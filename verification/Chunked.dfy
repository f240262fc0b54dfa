/** Request bodies framed by Content-Length or chunked encoding, read a piece
    at a time. A reader is a function of the bytes still to come on the
    connection. */
module Chunked {
  import opened Arithmetic
  import opened Common
  import opened Bytes

  const LINE_LIMIT: nat := 1024
  const MAX_TRAILERS: nat := 16384
  const CHUNK_SIZE: nat := 65536
  const DRAIN_FACTOR: nat := 4

  const BAD_REQUEST: nat := 400
  const TOO_LARGE: nat := 413

  datatype Error = ClientGone | Refused(status: nat)

  // The position of the first byte b, or the length when there is none.
  function IndexOf(w: Bytes, b: Byte): (i: nat)
    ensures i <= |w| && (forall k | 0 <= k < i :: w[k] != b) && (i < |w| ==> w[i] == b)
  {
    if w == [] || w[0] == b then 0 else 1 + IndexOf(w[1..], b)
  }

  // ----- The connection -----

  /** data: all bytes that will still arrive. reset: whether a read that
      needs more than those fails, rather than finding the end. */
  datatype Wire = Wire(data: Bytes, reset: bool)

  function Fetch(w: Wire, n: nat): (r: Result<(Bytes, Wire), Error>)
    ensures r.Ok? ==> |r.value.0| <= n
    ensures r.Ok? ==> r.value.0 + r.value.1.data == w.data && r.value.1.reset == w.reset
  {
    if |w.data| >= n then Ok((w.data[..n], w.(data := w.data[n..])))
    else if w.reset then Err(ClientGone)
    else Ok((w.data, w.(data := [])))
  }

  predicate Ends(line: Bytes) {
    line != [] && line[|line| - 1] == LF
  }

  // One line with its end, or its first 1024 bytes, or all there is.
  function ReadLine(w: Wire): (r: Result<(Bytes, Wire), Error>)
    ensures r.Ok? ==> r.value.0 + r.value.1.data == w.data && r.value.1.reset == w.reset
    ensures r.Ok? ==> |r.value.0| <= LINE_LIMIT
    ensures r.Err? ==> r == Err(ClientGone) && w.reset
    ensures r.Ok? && r.value.0 == [] ==> w.data == [] && !w.reset
  {
    var window := w.data[..Min(LINE_LIMIT, |w.data|)];
    var i := IndexOf(window, LF);
    var n := if i < |window| then i + 1 else |window|;
    if n < LINE_LIMIT && i == |window| && w.reset then Err(ClientGone)
    else Ok((w.data[..n], w.(data := w.data[n..])))
  }

  predicate IsBlank(line: Bytes) {
    line == CRLF || line == [LF]
  }

  // ----- The size line of a chunk -----

  function DropLineEnd(b: Bytes): (r: Bytes)
    ensures r <= b
  {
    if b != [] && (b[|b| - 1] == CR || b[|b| - 1] == LF) then DropLineEnd(b[..|b| - 1]) else b
  }

  predicate IsPadding(b: Byte) { b == SPACE || b == TAB }

  function TrimLeft(b: Bytes): Bytes {
    if b != [] && IsPadding(b[0]) then TrimLeft(b[1..]) else b
  }

  function TrimRight(b: Bytes): Bytes {
    if b != [] && IsPadding(b[|b| - 1]) then TrimRight(b[..|b| - 1]) else b
  }

  predicate IsHex(b: Byte) {
    48 <= b <= 57 || 65 <= b <= 70 || 97 <= b <= 102
  }

  function Digit(b: Byte): (d: nat)
    requires IsHex(b)
    ensures d < 16
  {
    if b <= 57 then b as int - 48 else if b <= 70 then b as int - 55 else b as int - 87
  }

  predicate AllHex(b: Bytes) {
    forall k | 0 <= k < |b| :: IsHex(b[k])
  }

  function Number(digits: Bytes): nat
    requires AllHex(digits)
  {
    if digits == [] then 0 else 16 * Number(digits[..|digits| - 1]) + Digit(digits[|digits| - 1])
  }

  // The size a chunk's line gives; extensions after a semicolon are ignored.
  function SizeOf(line: Bytes): Option<nat> {
    var text := DropLineEnd(line);
    var field := TrimRight(TrimLeft(text[..IndexOf(text, SEMICOLON)]));
    if Ends(line) && 1 <= |field| <= 15 && AllHex(field) then Some(Number(field)) else None
  }

  // ----- The reader -----

  datatype Framing = Plain(left: nat) | Chunks(left: nat, done: bool)

  datatype Reader = Reader(wire: Wire, framing: Framing, broken: bool, total: nat, limit: nat)

  datatype Outcome = Data(bytes: Bytes) | Failed(error: Error)

  function Broken(r: Reader): (Outcome, Reader) {
    (Failed(Refused(BAD_REQUEST)), r.(broken := true))
  }

  function ReadPlain(r: Reader, size: nat): (p: (Outcome, Reader))
    requires r.framing.Plain?
    ensures p.0.Data? ==> |p.0.bytes| <= size
    ensures p.1.framing.Plain? == r.framing.Plain? && p.1.limit == r.limit && p.1.total == r.total
  {
    var left := r.framing.left;
    if left == 0 then (Data([]), r)
    else match Fetch(r.wire, Min(size, left))
      case Err(e) => (Failed(e), r)
      case Ok((data, w)) =>
        if data == [] then (Failed(ClientGone), r.(wire := w))
        else
          (Data(data), r.(wire := w, framing := Plain(left - |data|)))
  }

  // Skips lines up to the blank one that ends the body.
  function SkipTrailers(w: Wire, budget: nat): (Result<(), Error>, Wire)
    decreases |w.data|
  {
    match ReadLine(w)
    case Err(e) => (Err(e), w)
    case Ok((line, rest)) =>
      if IsBlank(line) then (Ok(()), rest)
      else if line == [] then (Err(ClientGone), rest)
      else if budget < |line| then (Err(Refused(BAD_REQUEST)), rest)
      else
        assert |w.data| == |line + rest.data|;
        SkipTrailers(rest, budget - |line|)
  }

  // Reads inside a chunk, and the line that follows its last byte.
  function ReadInChunk(r: Reader, size: nat): (p: (Outcome, Reader))
    requires r.framing.Chunks? && r.framing.left > 0
    ensures p.0.Data? ==> |p.0.bytes| <= size
    ensures p.1.framing.Plain? == r.framing.Plain? && p.1.limit == r.limit && p.1.total == r.total
  {
    var left := r.framing.left;
    match Fetch(r.wire, Min(size, left))
    case Err(e) => (Failed(e), r)
    case Ok((data, w)) =>
      if data == [] then (Failed(ClientGone), r.(wire := w))
      else
        var next := r.(wire := w, framing := Chunks(left - |data|, false));
        if left > |data| then (Data(data), next)
        else match ReadLine(w)
          case Err(e) => (Failed(e), next)
          case Ok((line, after)) =>
            if IsBlank(line) then (Data(data), next.(wire := after)) else Broken(next.(wire := after))
  }

  function ReadChunked(r: Reader, size: nat): (p: (Outcome, Reader))
    requires r.framing.Chunks?
    ensures p.0.Data? ==> |p.0.bytes| <= size
    ensures p.1.framing.Plain? == r.framing.Plain? && p.1.limit == r.limit && p.1.total == r.total
  {
    if r.framing.done then (Data([]), r)
    else if r.framing.left > 0 then ReadInChunk(r, size)
    else match ReadLine(r.wire)
      case Err(e) => (Failed(e), r)
      case Ok((line, w)) =>
        match SizeOf(line)
        case None => Broken(r.(wire := w))
        case Some(0) =>
          var (end, after) := SkipTrailers(w, MAX_TRAILERS);
          if end.Ok? then (Data([]), r.(wire := after, framing := Chunks(0, true)))
          else (Failed(end.error), r.(wire := after, broken := r.broken || end.error.Refused?))
        case Some(k) => ReadInChunk(r.(wire := w, framing := Chunks(k, false)), size)
  }

  function ReadAny(r: Reader, size: nat): (p: (Outcome, Reader))
    ensures p.0.Data? ==> |p.0.bytes| <= size
    ensures p.1.framing.Plain? == r.framing.Plain? && p.1.limit == r.limit && p.1.total == r.total
  {
    if r.framing.Plain? then ReadPlain(r, size) else ReadChunked(r, size)
  }

  // Counts what was read, and gives it out within the limit.
  function Counted(o: Outcome, r: Reader): (Outcome, Reader) {
    if o.Failed? then (o, r)
    else
      var counted := r.(total := r.total + |o.bytes|);
      if counted.total > r.limit then (Failed(Refused(TOO_LARGE)), counted) else (o, counted)
  }

  function Read(r: Reader, size: nat): (Outcome, Reader) {
    if r.framing.Plain? && r.total + r.framing.left > r.limit then (Failed(Refused(TOO_LARGE)), r)
    else
      var (o, next) := ReadAny(r, size);
      Counted(o, next)
  }

  // Discards what is left, up to a budget.
  function Discard(r: Reader, budget: nat): (bool, Reader)
    decreases budget
  {
    if budget == 0 then (AtEnd(r), r)
    else
      var (o, next) := ReadAny(r, Min(CHUNK_SIZE, budget));
      if o.Failed? then (false, next)
      else if o.bytes == [] then (AtEnd(next), next)
      else Discard(next, budget - |o.bytes|)
  }

  predicate AtEnd(r: Reader) {
    if r.framing.Plain? then r.framing.left == 0 else r.framing.done
  }

  function Drain(r: Reader): (bool, Reader) {
    if r.broken then (false, r) else Discard(r, DRAIN_FACTOR * r.limit)
  }
}
