/** The body reader as the object it is: counters updated by each read of the
    connection. Each method is proved to compute the function of module
    Chunked with its name. */
module BodyReader {
  import opened Arithmetic
  import opened Common
  import opened Bytes
  import C = Chunked
  import T = ChunkedTheorems

  class Connection {
    var wire: C.Wire

    constructor (wire: C.Wire)
      ensures this.wire == wire
    {
      this.wire := wire;
    }

    method Read(n: nat) returns (r: Result<Bytes, C.Error>)
      modifies this
      ensures match C.Fetch(old(wire), n)
        case Ok((data, next)) => r == Ok(data) && wire == next
        case Err(e) => r == Err(e) && wire == old(wire)
    {
      match C.Fetch(wire, n) {
        case Ok((data, next)) => wire := next; return Ok(data);
        case Err(e) => return Err(e);
      }
    }

    method ReadLine() returns (r: Result<Bytes, C.Error>)
      modifies this
      ensures match C.ReadLine(old(wire))
        case Ok((line, next)) => r == Ok(line) && wire == next
        case Err(e) => r == Err(e) && wire == old(wire)
    {
      match C.ReadLine(wire) {
        case Ok((line, next)) => wire := next; return Ok(line);
        case Err(e) => return Err(e);
      }
    }
  }

  // What was read since start, with the reader now.
  ghost predicate Collected(start: C.Reader, parts: Bytes, now: C.Reader) {
    && !now.broken && T.Further(start, now)
    && now.total == start.total + |parts|
    && (T.ToCome(start).Ok? ==> parts <= T.ToCome(start).value.0)
  }

  lemma {:induction false} CollectsMore(start: C.Reader, parts: Bytes, now: C.Reader, o: C.Outcome, next: C.Reader)
    requires Collected(start, parts, now) && T.Returns(now, o, next) && !start.broken
    ensures o.Data? && o.bytes != [] ==> Collected(start, parts + o.bytes, next)
    ensures o == C.Data([]) ==>
      T.ToCome(start) == Ok((parts, next.wire)) && (|parts| > 0 ==> start.total + |parts| <= start.limit)
  {
    T.FurtherStill(start, now, next);
    if o == C.Data([]) {
      T.EndIsEnd(next);
    }
    if T.ToCome(start).Ok? && o.Data? {
      var content := T.ToCome(start).value.0;
      assert content == parts + content[|parts|..];
      if o.bytes == [] {
        assert content[|parts|..] == [];
        assert content == parts;
      }
    }
  }

  class Reader {
    const conn: Connection
    const limit: nat
    const chunked: bool
    var total: nat
    var broken: bool
    var left: nat
    var done: bool

    // A chunked body, or one of a declared length.
    constructor (conn: Connection, length: Option<nat>, limit: nat)
      ensures this.conn == conn
      ensures Now() == C.Reader(conn.wire, if length.Some? then C.Plain(length.value) else C.Chunks(0, false), false, 0, limit)
    {
      this.conn := conn;
      this.limit := limit;
      chunked := length.None?;
      total := 0;
      broken := false;
      left := if length.Some? then length.value else 0;
      done := false;
    }

    ghost function Now(): C.Reader
      reads this, conn
    {
      C.Reader(conn.wire, if chunked then C.Chunks(left, done) else C.Plain(left), broken, total, limit)
    }

    method ReadPlain(size: nat) returns (o: C.Outcome)
      requires !chunked
      modifies this, conn
      ensures (o, Now()) == C.ReadPlain(old(Now()), size)
    {
      if left == 0 {
        return C.Data([]);
      }
      var data := conn.Read(Min(size, left));
      if data.Err? {
        return C.Failed(data.error);
      }
      if data.value == [] {
        return C.Failed(C.ClientGone);
      }
      left := left - |data.value|;
      o := C.Data(data.value);
    }

    method SkipTrailers() returns (r: Result<(), C.Error>)
      modifies conn
      ensures (r, conn.wire) == C.SkipTrailers(old(conn.wire), C.MAX_TRAILERS)
    {
      var budget: nat := C.MAX_TRAILERS;
      while true
        invariant C.SkipTrailers(conn.wire, budget) == C.SkipTrailers(old(conn.wire), C.MAX_TRAILERS)
        decreases |conn.wire.data|
      {
        var line := conn.ReadLine();
        if line.Err? {
          return Err(line.error);
        }
        if C.IsBlank(line.value) {
          return Ok(());
        }
        if line.value == [] {
          return Err(C.ClientGone);
        }
        if budget < |line.value| {
          return Err(C.Refused(C.BAD_REQUEST));
        }
        budget := budget - |line.value|;
      }
    }

    method ReadInChunk(size: nat) returns (o: C.Outcome)
      requires chunked && left > 0 && !done
      modifies this, conn
      ensures (o, Now()) == C.ReadInChunk(old(Now()), size)
    {
      var data := conn.Read(Min(size, left));
      if data.Err? {
        return C.Failed(data.error);
      }
      if data.value == [] {
        return C.Failed(C.ClientGone);
      }
      left := left - |data.value|;
      if left == 0 {
        var line := conn.ReadLine();
        if line.Err? {
          return C.Failed(line.error);
        }
        if !C.IsBlank(line.value) {
          broken := true;
          return C.Failed(C.Refused(C.BAD_REQUEST));
        }
      }
      o := C.Data(data.value);
    }

    method ReadChunked(size: nat) returns (o: C.Outcome)
      requires chunked
      modifies this, conn
      ensures (o, Now()) == C.ReadChunked(old(Now()), size)
    {
      if done {
        return C.Data([]);
      }
      if left == 0 {
        var line := conn.ReadLine();
        if line.Err? {
          return C.Failed(line.error);
        }
        var k := C.SizeOf(line.value);
        if k.None? {
          broken := true;
          return C.Failed(C.Refused(C.BAD_REQUEST));
        }
        left := k.value;
        if left == 0 {
          var end := SkipTrailers();
          if end.Err? {
            broken := broken || end.error.Refused?;
            return C.Failed(end.error);
          }
          done := true;
          return C.Data([]);
        }
      }
      o := ReadInChunk(size);
    }

    method ReadAny(size: nat) returns (o: C.Outcome)
      modifies this, conn
      ensures (o, Now()) == C.ReadAny(old(Now()), size)
    {
      if chunked {
        o := ReadChunked(size);
      } else {
        o := ReadPlain(size);
      }
    }

    method Count(o: C.Outcome) returns (r: C.Outcome)
      modifies this
      ensures (r, Now()) == C.Counted(o, old(Now()))
    {
      if o.Failed? {
        return o;
      }
      total := total + |o.bytes|;
      return if total > limit then C.Failed(C.Refused(C.TOO_LARGE)) else o;
    }

    method Read(size: nat) returns (o: C.Outcome)
      modifies this, conn
      ensures (o, Now()) == C.Read(old(Now()), size)
    {
      if !chunked && total + left > limit {
        return C.Failed(C.Refused(C.TOO_LARGE));
      }
      o := ReadAny(size);
      o := Count(o);
    }

    /** Reads to the end. What comes out is all of the content, and comes out
        exactly when the body is well formed and within the limit. */
    method ReadAll() returns (r: Result<Bytes, C.Error>)
      requires !broken
      modifies this, conn
      ensures match T.ToCome(old(Now()))
        case Err(e) => r.Err?
        case Ok((content, end)) =>
          if old(total) + |content| <= limit then r == Ok(content) && conn.wire == end
          else r == Err(C.Refused(C.TOO_LARGE))
    {
      var parts: Bytes := [];
      T.FurtherIsReflexive(Now());
      while true
        invariant Collected(old(Now()), parts, Now())
        decreases limit - total
      {
        ghost var before := Now();
        T.ReadReturns(before, C.CHUNK_SIZE);
        var chunk := Read(C.CHUNK_SIZE);
        CollectsMore(old(Now()), parts, before, chunk, Now());
        if chunk.Failed? {
          return Err(chunk.error);
        }
        if chunk.bytes == [] {
          return Ok(parts);
        }
        parts := parts + chunk.bytes;
      }
    }

    method Drain() returns (end: bool)
      modifies this, conn
      ensures (end, Now()) == C.Drain(old(Now()))
    {
      if broken {
        return false;
      }
      var budget: nat := C.DRAIN_FACTOR * limit;
      while budget > 0
        invariant C.Discard(Now(), budget) == C.Discard(old(Now()), C.DRAIN_FACTOR * limit)
        decreases budget
      {
        var data := ReadAny(Min(C.CHUNK_SIZE, budget));
        if data.Failed? {
          return false;
        }
        if data.bytes == [] {
          break;
        }
        budget := budget - |data.bytes|;
      }
      end := if chunked then done else left == 0;
    }
  }
}
