/** The multipart reader as the object it is: a buffer refilled from a body
    reader inside loops. Each method is proved to compute the function of
    module Multipart with its name. */
module MultipartReader {
  import opened Common
  import opened Bytes
  import M = Multipart

  /** The body as its reader hands it out: one piece per read, then no bytes,
      or the error the reader raises. */
  class Body {
    var pieces: seq<Bytes>
    const fault: Option<M.Error>

    constructor (pieces: seq<Bytes>, fault: Option<M.Error>)
      ensures this.pieces == pieces && this.fault == fault
    {
      this.pieces := pieces;
      this.fault := fault;
    }

    method Read() returns (r: Result<Bytes, M.Error>)
      modifies this
      ensures old(pieces) != [] ==> r == Ok(old(pieces)[0]) && pieces == old(pieces)[1..]
      ensures old(pieces) == [] ==> pieces == [] && r == if fault.Some? then Err(fault.value) else Ok([])
    {
      if pieces == [] {
        return if fault.Some? then Err(fault.value) else Ok([]);
      }
      r := Ok(pieces[0]);
      pieces := pieces[1..];
    }
  }

  // Having written this much and come to st, the copy that began at start goes on as one from st.
  ghost predicate Copied(start: M.Stream, token: Bytes, written: Bytes, st: M.Stream)
    requires |token| > 1
  {
    && M.CopyUntil(start, token).0 == written + M.CopyUntil(st, token).0
    && M.CopyUntil(start, token).1 == M.CopyUntil(st, token).1
  }

  // Setting aside all but the last bytes, then filling, is a step of the copy.
  lemma {:induction false} CopyStep(st: M.Stream, token: Bytes, held: M.Stream, cut: nat)
    requires |token| > 1 && Find(st.buf, token) < 0
    requires cut == if |st.buf| > |token| - 1 then |st.buf| - (|token| - 1) else 0
    requires held == st.(buf := st.buf[cut..])
    ensures M.Fill(held).Ok? ==> Copied(st, token, st.buf[..cut], M.Fill(held).value)
    ensures M.Fill(held).Err? ==> M.CopyUntil(st, token) == (st.buf[..cut], Err(M.Fill(held).error))
  {
    var out := st.buf[..cut];
    match M.Fill(held) {
      case Err(e) => assert M.CopyUntil(st, token) == (out, Err(e));
      case Ok(next) =>
        var rest := M.CopyUntil(next, token);
        assert M.CopyUntil(st, token) == (out + rest.0, rest.1);
    }
  }

  lemma {:induction false} CopiedFurther(start: M.Stream, token: Bytes, out: Bytes, st: M.Stream, more: Bytes,
                                         next: M.Stream)
    requires |token| > 1 && Copied(start, token, out, st) && Copied(st, token, more, next)
    ensures Copied(start, token, out + more, next)
  {
    var rest := M.CopyUntil(next, token).0;
    assert out + (more + rest) == out + more + rest;
  }

  // Having gathered these parts and come to st, the reading goes on as one from st.
  ghost predicate Gathered(all: M.Parsed, parts: seq<(Bytes, Bytes)>, st: M.Stream, separator: Bytes)
    requires |separator| > 1
  {
    var rest := M.PartsFrom(st, separator);
    all.parts == parts + rest.parts && all.status == rest.status
  }

  lemma {:induction false} PartGathered(all: M.Parsed, parts: seq<(Bytes, Bytes)>, st: M.Stream, separator: Bytes,
                                        raw: Bytes, next: M.Stream)
    requires |separator| > 1 && Gathered(all, parts, st, separator)
    requires M.AfterDelimiter(st) == Ok((M.Header(raw), next))
    ensures var copied := M.CopyUntil(next, separator); var more := parts + [(raw, copied.0)];
      if copied.1.Err? then all == M.Parsed(more, Err(copied.1.error)) else Gathered(all, more, copied.1.value, separator)
  {
    var copied := M.CopyUntil(next, separator);
    if copied.1.Ok? {
      var rest := M.PartsFrom(copied.1.value, separator).parts;
      assert parts + ([(raw, copied.0)] + rest) == parts + [(raw, copied.0)] + rest;
    }
  }

  class MultipartStream {
    const body: Body
    const separator: Bytes
    var buf: Bytes

    constructor (body: Body, boundary: Bytes)
      ensures this.body == body && separator == M.Separator(boundary)
      ensures Now() == M.Stream(CRLF, body.pieces, body.fault)
    {
      this.body := body;
      this.buf := CRLF;
      this.separator := CRLF + M.DASHES + boundary;
    }

    ghost function Now(): M.Stream
      reads this, body
    {
      M.Stream(buf, body.pieces, body.fault)
    }

    // Every piece handed out has bytes in it, as a read before the end has.
    ghost predicate Valid()
      reads this, body
    {
      M.Proper(Now()) && |separator| > 1
    }

    method Fill() returns (r: Result<(), M.Error>)
      requires Valid()
      modifies this, body
      ensures Valid()
      ensures match M.Fill(old(Now()))
        case Ok(next) => r == Ok(()) && Now() == next
        case Err(e) => r == Err(e)
    {
      var chunk := body.Read();
      if chunk.Err? {
        return Err(chunk.error);
      }
      if chunk.value == [] {
        return Err(M.EndedEarly);
      }
      buf := buf + chunk.value;
      r := Ok(());
    }

    method ReadUntil(token: Bytes, limit: nat) returns (r: Result<Bytes, M.Error>)
      requires Valid() && |token| > 0
      modifies this, body
      ensures Valid()
      ensures match M.ReadUntil(old(Now()), token, limit)
        case Ok((data, next)) => r == Ok(data) && Now() == next
        case Err(e) => r == Err(e)
    {
      var i := Find(buf, token);
      while i < 0
        invariant Valid() && i == Find(buf, token)
        invariant M.ReadUntil(Now(), token, limit) == M.ReadUntil(old(Now()), token, limit)
        decreases |body.pieces|, i < 0
      {
        if |buf| > limit {
          return Err(M.HeadersTooLarge);
        }
        var filled := Fill();
        if filled.Err? {
          return Err(filled.error);
        }
        i := Find(buf, token);
      }
      if i > limit {
        return Err(M.HeadersTooLarge);
      }
      r := Ok(buf[..i]);
      buf := buf[i + |token|..];
    }

    // written: everything passed to the caller's write, in order.
    method CopyUntil(token: Bytes) returns (written: Bytes, r: Result<(), M.Error>)
      requires Valid() && |token| > 1
      modifies this, body
      ensures Valid()
      ensures var spec := M.CopyUntil(old(Now()), token);
        && written == spec.0
        && match spec.1
           case Ok(next) => r == Ok(()) && Now() == next
           case Err(e) => r == Err(e)
    {
      written := [];
      var keep := |token| - 1;
      var i := Find(buf, token);
      while i < 0
        invariant Valid() && i == Find(buf, token)
        invariant Copied(old(Now()), token, written, Now())
        decreases |body.pieces|, i < 0
      {
        ghost var before, out := Now(), written;
        var cut := if |buf| > keep then |buf| - keep else 0;
        if cut > 0 {
          written := written + buf[..cut];
          buf := buf[cut..];
        }
        assert written == out + before.buf[..cut];
        CopyStep(before, token, Now(), cut);
        var filled := Fill();
        if filled.Err? {
          return written, Err(filled.error);
        }
        CopiedFurther(old(Now()), token, out, before, before.buf[..cut], Now());
        i := Find(buf, token);
      }
      written := written + buf[..i];
      buf := buf[i + |token|..];
      r := Ok(());
    }

    method Peek() returns (r: Result<(), M.Error>)
      requires Valid()
      modifies this, body
      ensures Valid()
      ensures match M.Peek(old(Now()))
        case Ok(next) => r == Ok(()) && Now() == next
        case Err(e) => r == Err(e)
    {
      while |buf| < 2
        invariant Valid()
        invariant M.Peek(Now()) == M.Peek(old(Now()))
        decreases |body.pieces|
      {
        var filled := Fill();
        if filled.Err? {
          return filled;
        }
      }
      r := Ok(());
    }

    method SkipPadding() returns (r: Result<(), M.Error>)
      requires Valid() && |buf| >= 2
      modifies this, body
      ensures Valid()
      ensures match M.SkipPadding(old(Now()), 0)
        case Ok(next) => r == Ok(()) && Now() == next
        case Err(e) => r == Err(e)
    {
      var padding := 0;
      while M.Blank(buf[0])
        invariant Valid() && |buf| >= 2
        invariant M.SkipPadding(Now(), padding) == M.SkipPadding(old(Now()), 0)
        decreases |M.Whole(Now())|
      {
        ghost var before := Now();
        assert M.Whole(before)[1..] == before.buf[1..] + M.Flat(before.pieces);
        buf := buf[1..];
        padding := padding + 1;
        if padding > M.MAX_HEADER {
          return Err(M.InvalidDelimiter);
        }
        var peeked := Peek();
        if peeked.Err? {
          return peeked;
        }
      }
      r := Ok(());
    }

    // The reading of a header block, or of the end of the body.
    method NextPart() returns (r: Result<M.Event, M.Error>)
      requires Valid()
      modifies this, body
      ensures Valid()
      ensures match M.AfterDelimiter(old(Now()))
        case Ok((e, next)) => r == Ok(e) && (e.Header? ==> Now() == next)
        case Err(e) => r == Err(e)
    {
      var peeked := Peek();
      if peeked.Err? {
        return Err(peeked.error);
      }
      if buf[..2] == M.DASHES {
        var epilogue := body.Read();
        while epilogue.Ok? && epilogue.value != []
          invariant Valid()
          invariant body.pieces == [] && epilogue.Ok? && epilogue.value == [] ==> body.fault.None?
          invariant epilogue.Ok? && epilogue.value == [] ==> body.pieces == []
          invariant epilogue.Err? ==> Some(epilogue.error) == body.fault
          decreases |body.pieces|, epilogue.Ok? && epilogue.value != []
        {
          epilogue := body.Read();
        }
        return if epilogue.Err? then Err(epilogue.error) else Ok(M.Closing);
      }
      var skipped := SkipPadding();
      if skipped.Err? {
        return Err(skipped.error);
      }
      var marker := buf[..2];
      buf := buf[2..];
      if marker != CRLF {
        return Err(M.InvalidDelimiter);
      }
      peeked := Peek();
      if peeked.Err? {
        return Err(peeked.error);
      }
      if buf[..2] == CRLF {
        buf := buf[2..];
        return Ok(M.Header([]));
      }
      var raw := ReadUntil(M.BLANK_LINE, M.MAX_HEADER);
      return if raw.Err? then Err(raw.error) else Ok(M.Header(raw.value));
    }

    // All parts, each one copied before the next is read.
    method Parts(boundary: Bytes) returns (parts: seq<(Bytes, Bytes)>, status: Result<(), M.Error>)
      requires Valid() && separator == M.Separator(boundary)
      modifies this, body
      ensures M.Parsed(parts, status) == M.Parts(old(Now()), boundary)
    {
      parts := [];
      var preamble := ReadUntil(separator, M.MAX_HEADER);
      if preamble.Err? {
        return [], Err(preamble.error);
      }
      while true
        invariant Valid()
        invariant Gathered(M.Parts(old(Now()), boundary), parts, Now(), separator)
        decreases |M.Whole(Now())|
      {
        ghost var st := Now();
        var e := NextPart();
        if e.Err? {
          return parts, Err(e.error);
        }
        if e.value.Closing? {
          return parts, Ok(());
        }
        PartGathered(M.Parts(old(Now()), boundary), parts, st, separator, e.value.raw, Now());
        var content, copied := CopyUntil(separator);
        if copied.Err? {
          return parts + [(e.value.raw, content)], copied;
        }
        parts := parts + [(e.value.raw, content)];
      }
    }
  }
}
