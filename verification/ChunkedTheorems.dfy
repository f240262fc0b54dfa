/** What any sequence of reads makes of a framed body: its content in order,
    never past the limit, and an end that the connection stands at exactly. */
module ChunkedTheorems {
  import opened Arithmetic
  import opened Common
  import opened Bytes
  import opened Chunked

  type Whole = Result<(Bytes, Wire), Error>

  function Prepend(d: Bytes, r: Whole): Whole {
    match r
    case Err(e) => Err(e)
    case Ok((content, w)) => Ok((d + content, w))
  }

  lemma {:induction false} NothingPrepended(r: Whole)
    ensures Prepend([], r) == r
  {
    if r.Ok? {
      assert [] + r.value.0 == r.value.0;
    }
  }

  // The rest of a chunked body decoded in one go: its content, and the connection past its end.
  function Body(w: Wire, left: nat): Whole
    decreases |w.data|
  {
    if left > 0 then
      if |w.data| < left then Err(ClientGone)
      else match ReadLine(w.(data := w.data[left..]))
        case Err(e) => Err(e)
        case Ok((line, rest)) =>
          assert |line + rest.data| == |w.data| - left;
          if IsBlank(line) then Prepend(w.data[..left], Body(rest, 0)) else Err(Refused(BAD_REQUEST))
    else match ReadLine(w)
      case Err(e) => Err(e)
      case Ok((line, rest)) =>
        assert |line + rest.data| == |w.data|;
        match SizeOf(line)
        case None => Err(Refused(BAD_REQUEST))
        case Some(0) =>
          var (end, after) := SkipTrailers(rest, MAX_TRAILERS);
          if end.Ok? then Ok(([], after)) else Err(end.error)
        case Some(k) => Body(rest, k)
  }

  function ToCome(r: Reader): Whole {
    match r.framing
    case Plain(left) =>
      if |r.wire.data| < left then Err(ClientGone)
      else Ok((r.wire.data[..left], r.wire.(data := r.wire.data[left..])))
    case Chunks(left, done) => if done then Ok(([], r.wire)) else Body(r.wire, left)
  }

  // ----- One read -----

  lemma {:induction false} PrependTwice(a: Bytes, b: Bytes, r: Whole)
    ensures Prepend(a + b, r) == Prepend(a, Prepend(b, r))
  {
    if r.Ok? {
      assert a + b + r.value.0 == a + (b + r.value.0);
    }
  }

  // Splitting a chunk in two does not change the body.
  lemma {:induction false} ChunkSplits(w: Wire, left: nat, k: nat)
    requires 0 < k < left && k <= |w.data|
    ensures Body(w, left) == Prepend(w.data[..k], Body(w.(data := w.data[k..]), left - k))
  {
    var v := w.(data := w.data[k..]);
    if left <= |w.data| {
      var a, b := w.data[..k], v.data[..left - k];
      assert v.data[left - k..] == w.data[left..] && w.data[..left] == a + b;
      match ReadLine(w.(data := w.data[left..])) {
        case Err(_) =>
        case Ok((line, rest)) => PrependTwice(a, b, Body(rest, 0));
      }
    }
  }

  // A read takes what it returns off the body, or finds the error the body has.
  ghost predicate Takes(r: Reader, o: Outcome, next: Reader) {
    && next.limit == r.limit && next.total == r.total
    && match o
       case Failed(e) =>
         && ToCome(r) == Err(e)
         && next.broken == (r.broken || e.Refused?)
         && (e.ClientGone? ==> ToCome(next).Err?)
       case Data(d) =>
         && next.broken == r.broken && ToCome(r) == Prepend(d, ToCome(next))
         && (d == [] ==> AtEnd(next))
         && (d != [] ==> !AtEnd(r) && (AtEnd(next) ==> next.framing.Plain?))
  }

  lemma {:induction false} PlainTakes(r: Reader, size: nat)
    requires size > 0 && r.framing.Plain?
    ensures var (o, next) := ReadPlain(r, size); Takes(r, o, next)
  {
    var left, data := r.framing.left, r.wire.data;
    var (o, next) := ReadPlain(r, size);
    if o.Data? && left <= |data| {
      assert data[..left] == o.bytes + next.wire.data[..left - |o.bytes|];
      assert data[left..] == next.wire.data[left - |o.bytes|..];
    }
  }

  lemma {:induction false} InsideStep(r: Reader, size: nat)
    requires r.framing.Chunks? && 0 < size < r.framing.left && size <= |r.wire.data|
    ensures ReadInChunk(r, size)
         == (Data(r.wire.data[..size]),
             r.(wire := r.wire.(data := r.wire.data[size..]), framing := Chunks(r.framing.left - size, false)))
  {
  }

  // A read that ends before its chunk does.
  lemma {:induction false} InsideTakes(r: Reader, size: nat, next: Reader)
    requires r.framing.Chunks? && 0 < size < r.framing.left && !r.framing.done && size <= |r.wire.data|
    requires next.wire == r.wire.(data := r.wire.data[size..])
    requires next == r.(wire := next.wire, framing := Chunks(r.framing.left - size, false))
    ensures Takes(r, Data(r.wire.data[..size]), next)
  {
    hide Body;
    var left := r.framing.left;
    ChunkSplits(r.wire, left, size);
    assert ToCome(r) == Body(r.wire, left) && ToCome(next) == Body(next.wire, left - size);
  }

  // A read that reaches the end of its chunk.
  lemma {:induction false} LastTakes(r: Reader, size: nat)
    requires r.framing.Chunks? && 0 < r.framing.left <= size && !r.framing.done && r.framing.left <= |r.wire.data|
    ensures var (o, next) := ReadInChunk(r, size); Takes(r, o, next)
  {
    var left := r.framing.left;
    var w := r.wire.(data := r.wire.data[left..]);
    assert Fetch(r.wire, Min(size, left)) == Ok((r.wire.data[..left], w));
    assert ReadLine(w).Err? ==> Body(w, 0).Err?;
  }

  // A read for which too little has arrived.
  lemma {:induction false} ShortTakes(r: Reader, size: nat)
    requires r.framing.Chunks? && 0 < size && 0 < r.framing.left && !r.framing.done
    requires |r.wire.data| < Min(size, r.framing.left)
    ensures var (o, next) := ReadInChunk(r, size); Takes(r, o, next)
  {
    assert Body(r.wire, r.framing.left) == Err(ClientGone);
  }

  lemma {:induction false} InChunkTakes(r: Reader, size: nat)
    requires size > 0 && r.framing.Chunks? && r.framing.left > 0 && !r.framing.done
    ensures var (o, next) := ReadInChunk(r, size); Takes(r, o, next)
  {
    if |r.wire.data| < Min(size, r.framing.left) {
      ShortTakes(r, size);
    } else if size < r.framing.left {
      InsideStep(r, size);
      InsideTakes(r, size, ReadInChunk(r, size).1);
    } else {
      LastTakes(r, size);
    }
  }

  lemma {:induction false} TrailersFail(w: Wire, budget: nat)
    ensures var (end, after) := SkipTrailers(w, budget);
      end == Err(ClientGone) ==> Body(after, 0).Err?
    decreases |w.data|
  {
    match ReadLine(w) {
      case Err(_) =>
      case Ok((line, rest)) =>
        assert |line + rest.data| == |w.data|;
        if line == [] {
          assert ReadLine(rest) == Ok(([], rest));
        } else if !IsBlank(line) && |line| <= budget {
          TrailersFail(rest, budget - |line|);
        }
    }
  }

  lemma {:induction false} LastChunkTakes(r: Reader, size: nat, line: Bytes, w: Wire)
    requires r.framing == Chunks(0, false)
    requires ReadLine(r.wire) == Ok((line, w)) && SizeOf(line) == Some(0)
    ensures var (o, next) := ReadChunked(r, size); Takes(r, o, next)
  {
    TrailersFail(w, MAX_TRAILERS);
    NothingPrepended(ToCome(r));
  }

  // A read that begins with a chunk's size line.
  lemma {:induction false} NextChunkTakes(r: Reader, size: nat)
    requires size > 0 && r.framing == Chunks(0, false)
    ensures var (o, next) := ReadChunked(r, size); Takes(r, o, next)
  {
    match ReadLine(r.wire) {
      case Err(_) =>
      case Ok((line, w)) =>
        var k := SizeOf(line);
        if k == Some(0) {
          LastChunkTakes(r, size, line, w);
        } else if k.Some? {
          var inside := r.(wire := w, framing := Chunks(k.value, false));
          InChunkTakes(inside, size);
          assert ToCome(r) == ToCome(inside);
          assert ReadChunked(r, size) == ReadInChunk(inside, size);
        }
    }
  }

  lemma {:induction false} ReadTakes(r: Reader, size: nat)
    requires size > 0
    ensures var (o, next) := ReadAny(r, size); Takes(r, o, next)
  {
    if r.framing.Plain? {
      PlainTakes(r, size);
    } else if !r.framing.done {
      if r.framing.left > 0 {
        InChunkTakes(r, size);
      } else {
        NextChunkTakes(r, size);
      }
    } else {
      NothingPrepended(ToCome(r));
    }
  }

  // ----- Runs of reads -----

  // What a run of reads returned, and the reader it leaves. A read that fails returns nothing.
  function Reads(r: Reader, sizes: seq<nat>): (Bytes, Reader)
    decreases |sizes|
  {
    if sizes == [] then ([], r)
    else
      var (o, next) := Read(r, sizes[0]);
      var (more, last) := Reads(next, sizes[1..]);
      ((if o.Data? then o.bytes else []) + more, last)
  }

  predicate Positive(sizes: seq<nat>) {
    forall k | 0 <= k < |sizes| :: sizes[k] > 0
  }

  /** next is r, further on in the same body: as many bytes on as were
      counted, with the same end, or with the same failure ahead. */
  ghost predicate Further(r: Reader, next: Reader) {
    && next.limit == r.limit && next.total >= r.total
    && (next.framing.Plain? <==> r.framing.Plain?)
    && (r.broken ==> next.broken)
    && (next.broken && !r.broken ==> ToCome(r).Err?)
    && (!next.broken ==>
         if ToCome(r).Err? then ToCome(next).Err?
         else
           var (content, end) := ToCome(r).value;
           var n := next.total - r.total;
           n <= |content| && ToCome(next) == Ok((content[n..], end)))
  }

  // What one read returns: the next bytes, unless the limit is passed.
  ghost predicate Returns(r: Reader, o: Outcome, next: Reader) {
    && Further(r, next)
    && (o.Data? ==> next.broken == r.broken && next.total == r.total + |o.bytes| <= r.limit)
    && (o.Data? && ToCome(r).Ok? ==> o.bytes <= ToCome(r).value.0)
    && (o.Failed? ==> ToCome(r).Err? || (o.error == Refused(TOO_LARGE) && r.total + |ToCome(r).value.0| > r.limit))
    && (o.Failed? ==> next.total == r.total || next.total > r.limit)
    && (o.Data? && o.bytes == [] ==> AtEnd(next))
  }

  // Bytes taken off are counted, and given out within the limit.
  lemma {:induction false} TakenIsReturned(r: Reader, o: Outcome, next: Reader, counted: Reader)
    requires o.Data? && Takes(r, o, next) && (next.framing.Plain? <==> r.framing.Plain?)
    requires counted == next.(total := r.total + |o.bytes|)
    ensures Returns(r, if counted.total > r.limit then Failed(Refused(TOO_LARGE)) else o, counted)
  {
    assert ToCome(counted) == ToCome(next);
    if ToCome(r).Ok? {
      var content := ToCome(r).value.0;
      assert content == o.bytes + ToCome(next).value.0;
      assert content[|o.bytes|..] == ToCome(next).value.0;
    }
  }

  lemma {:induction false} FailureIsReturned(r: Reader, o: Outcome, next: Reader)
    requires o.Failed? && Takes(r, o, next) && (next.framing.Plain? <==> r.framing.Plain?)
    ensures Returns(r, o, next)
  {
  }

  lemma {:induction false} ReadReturns(r: Reader, size: nat)
    requires size > 0
    ensures var (o, next) := Read(r, size); Returns(r, o, next)
  {
    if r.framing.Plain? && r.total + r.framing.left > r.limit {
      FurtherIsReflexive(r);
    } else {
      ReadTakes(r, size);
      var (o, next) := ReadAny(r, size);
      if o.Data? {
        TakenIsReturned(r, o, next, next.(total := r.total + |o.bytes|));
      } else {
        FailureIsReturned(r, o, next);
      }
    }
  }

  lemma {:induction false} EndIsEnd(r: Reader)
    requires AtEnd(r)
    ensures ToCome(r) == Ok(([], r.wire))
  {
    assert r.wire.data[0..] == r.wire.data;
  }

  lemma {:induction false} FurtherStill(a: Reader, b: Reader, c: Reader)
    requires Further(a, b) && Further(b, c)
    ensures Further(a, c)
  {
    if !c.broken && ToCome(a).Ok? {
      var (content, end) := ToCome(a).value;
      var n, m := b.total - a.total, c.total - b.total;
      assert content[n..][m..] == content[n + m..];
    }
  }

  lemma {:induction false} FurtherIsReflexive(r: Reader)
    ensures Further(r, r)
  {
    if ToCome(r).Ok? {
      assert ToCome(r).value.0[0..] == ToCome(r).value.0;
    }
  }

  // What a run of reads returned: the beginning of the content, within the limit.
  ghost predicate Delivers(r: Reader, d: Bytes, last: Reader) {
    && Further(r, last)
    && |d| <= last.total - r.total
    && (if r.total > r.limit then d == [] else r.total + |d| <= r.limit)
    && (last.total <= r.limit ==> |d| == last.total - r.total)
    && (ToCome(r).Ok? && !r.broken ==> d <= ToCome(r).value.0)
  }

  lemma {:induction false} BeginsContent(r: Reader, d: Bytes, next: Reader, more: Bytes)
    requires Further(r, next) && !next.broken && ToCome(r).Ok? && next.total == r.total + |d|
    requires d <= ToCome(r).value.0 && more <= ToCome(next).value.0
    ensures d + more <= ToCome(r).value.0
  {
    var content := ToCome(r).value.0;
    assert ToCome(next).value.0 == content[|d|..];
    assert content == d + content[|d|..];
  }

  lemma {:induction false} DeliversMore(r: Reader, o: Outcome, next: Reader, more: Bytes, last: Reader)
    requires Returns(r, o, next) && Delivers(next, more, last)
    ensures Delivers(r, (if o.Data? then o.bytes else []) + more, last)
  {
    FurtherStill(r, next, last);
    var d := if o.Data? then o.bytes else [];
    if ToCome(r).Ok? && !r.broken {
      if next.total == r.total + |d| {
        BeginsContent(r, d, next, more);
      } else {
        assert d + more == [];
      }
    }
  }

  /** Whatever reads are made, of whatever sizes and with whatever outcomes,
      the reader keeps its place in the body; what they returned is within the
      limit and is the beginning of the content. */
  lemma {:induction false} ReadsDeliver(r: Reader, sizes: seq<nat>)
    requires Positive(sizes)
    ensures var (d, last) := Reads(r, sizes); Delivers(r, d, last)
    decreases |sizes|
  {
    if sizes == [] {
      FurtherIsReflexive(r);
    } else {
      var (o, next) := Read(r, sizes[0]);
      ReadReturns(r, sizes[0]);
      ReadsDeliver(next, sizes[1..]);
      var (more, last) := Reads(next, sizes[1..]);
      DeliversMore(r, o, next, more, last);
    }
  }

  lemma {:induction false} DoneStays(r: Reader, sizes: seq<nat>)
    requires AtEnd(r) && r.total <= r.limit
    ensures Reads(r, sizes) == ([], r)
    decreases |sizes|
  {
    if sizes != [] {
      assert Read(r, sizes[0]) == (Data([]), r);
      DoneStays(r, sizes[1..]);
      assert [] + Reads(r, sizes[1..]).0 == [];
    }
  }

  /** A body within the limit is read to its end: as soon as there are more
      reads than bytes, they have returned all of the content, and the
      connection stands exactly past the body. */
  lemma {:induction false} ReadsFinish(r: Reader, sizes: seq<nat>)
    requires Positive(sizes) && !r.broken && ToCome(r).Ok?
    requires r.total + |ToCome(r).value.0| <= r.limit
    requires |sizes| > |ToCome(r).value.0|
    ensures var (d, last) := Reads(r, sizes); AtEnd(last) && (d, last.wire) == ToCome(r).value
    decreases |sizes|
  {
    var (o, next) := Read(r, sizes[0]);
    ReadReturns(r, sizes[0]);
    var content := ToCome(r).value.0;
    assert content == o.bytes + content[|o.bytes|..];
    if o.bytes == [] {
      DoneStays(next, sizes[1..]);
    } else {
      ReadsFinish(next, sizes[1..]);
    }
  }

  // ----- Draining -----

  // The most that is read off before giving up, and still finding the end.
  predicate WithinBudget(r: Reader, budget: nat, content: int) {
    || AtEnd(r)
    || content < budget
    || (r.framing.Plain? && content == budget)
  }

  lemma {:induction false} DiscardExact(r: Reader, budget: nat)
    ensures var (end, last) := Discard(r, budget);
      && (end <==> ToCome(r).Ok? && WithinBudget(r, budget, |ToCome(r).value.0|))
      && (end ==> last.wire == ToCome(r).value.1)
    decreases budget
  {
    if budget > 0 {
      var size := Min(CHUNK_SIZE, budget);
      ReadTakes(r, size);
      var (o, next) := ReadAny(r, size);
      if o.Data? && o.bytes != [] {
        DiscardExact(next, budget - |o.bytes|);
      }
    }
  }

  /** Draining, after any reads with any outcomes: it reports the end exactly
      when the body is well formed and what the reads left of it is within the
      budget, and the connection then stands exactly past the body. */
  lemma {:induction false} DrainExact(r: Reader, sizes: seq<nat>)
    requires Positive(sizes) && !r.broken
    ensures var after := Reads(r, sizes).1; var (end, last) := Drain(after);
      && (end <==> ToCome(r).Ok?
                   && WithinBudget(after, 4 * r.limit, |ToCome(r).value.0| - (after.total - r.total)))
      && (end ==> last.wire == ToCome(r).value.1)
  {
    ReadsDeliver(r, sizes);
    var after := Reads(r, sizes).1;
    DiscardExact(after, 4 * r.limit);
  }
}
