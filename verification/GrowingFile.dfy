/** An upload's file, whose space is allocated in steps ahead of the writes:
    never much more than has arrived, in few steps, and cut to exactly what
    was written. */
module GrowingFile {
  import opened Arithmetic
  import opened Common
  import opened Bytes

  const GROW_STEP: nat := 32 * 1024 * 1024

  /** expected: the size the client declared. grows: how often room was
      made. capped: how often that was up to the declared size. */
  datatype State = State(expected: Option<nat>, written: nat, space: nat, grows: nat, capped: nat)

  function Start(expected: Option<nat>): State {
    State(expected, 0, 0, 0, 0)
  }

  // The space to allocate when end bytes have arrived.
  function Ahead(expected: Option<nat>, end: nat): (size: nat)
    ensures end <= size <= 2 * end + GROW_STEP
  {
    if expected.Some? && expected.value > end
    then Min(expected.value, Max(end + GROW_STEP, 2 * end))
    else end + GROW_STEP
  }

  function Grown(s: State, n: nat): State {
    var end := s.written + n;
    if end <= s.space then s.(written := end)
    else
      var size := Ahead(s.expected, end);
      s.(written := end, space := size, grows := s.grows + 1,
         capped := s.capped + if size < end + GROW_STEP then 1 else 0)
  }

  function Run(s: State, sizes: seq<nat>): State
    decreases |sizes|
  {
    if sizes == [] then s else Run(Grown(s, sizes[0]), sizes[1..])
  }

  function Sum(sizes: seq<nat>): nat {
    if sizes == [] then 0 else sizes[0] + Sum(sizes[1..])
  }

  predicate Exceeded(s: State) {
    s.expected.Some? && s.written > s.expected.value
  }

  // Every allocation adds a step to what had arrived, but one that the declared size capped.
  ghost predicate Inv(s: State) {
    && s.written <= s.space <= 2 * s.written + GROW_STEP
    && s.capped <= 1 && s.capped <= s.grows
    && (s.capped == 1 ==> s.expected.Some? && s.space >= s.expected.value)
    && s.space >= (s.grows - s.capped) * GROW_STEP + (if s.grows > 0 then 1 else 0)
    && (s.grows > 0 ==> (s.grows - 2) * GROW_STEP < s.written)
    && (s.grows > 0 && !Exceeded(s) ==> (s.grows - 1) * GROW_STEP < s.written)
    && (s.grows == 0 ==> s.space == 0)
  }

  // While the declared size is not reached, what is allocated doubles.
  ghost predicate Doubling(s: State) {
    && (s.grows > 0 && s.expected.Some? && s.written <= s.expected.value ==>
         && Power(s.grows - 1) <= s.written
         && (s.space >= s.expected.value || Power(s.grows) <= s.space))
  }

  lemma {:induction false} WriteKeeps(s: State, n: nat)
    requires Inv(s)
    ensures Inv(Grown(s, n))
  {
  }

  lemma {:induction false} WriteDoubles(s: State, n: nat)
    requires Inv(s) && Doubling(s)
    ensures Doubling(Grown(s, n))
  {
  }

  lemma {:induction false} RunKeeps(s: State, sizes: seq<nat>)
    requires Inv(s) && Doubling(s)
    ensures var t := Run(s, sizes); Inv(t) && Doubling(t) && t.expected == s.expected && t.written == s.written + Sum(sizes)
    decreases |sizes|
  {
    if sizes != [] {
      WriteKeeps(s, sizes[0]);
      WriteDoubles(s, sizes[0]);
      RunKeeps(Grown(s, sizes[0]), sizes[1..]);
    }
  }

  lemma {:induction false} StepsIn(k: int, total: nat)
    requires k * GROW_STEP < total
    ensures k <= total / GROW_STEP
  {
  }

  /** Whatever is written, in whatever pieces and whatever size was declared:
      the space allocated is never more than twice what has arrived plus a
      step, and it was allocated in at most total/step + 2 calls. They are at
      most total/step + 1 calls when no size was declared or it was not
      exceeded, and then for a declared size at most as many as doubling
      takes. */
  lemma {:induction false} GrowthBound(expected: Option<nat>, sizes: seq<nat>)
    ensures var t := Run(Start(expected), sizes); var total := Sum(sizes);
      && total == t.written <= t.space <= 2 * total + 33_554_432
      && t.grows <= total / 33_554_432 + 2
      && (expected.None? || total <= expected.value ==> t.grows <= total / 33_554_432 + 1)
      && (expected.Some? && 0 < total <= expected.value ==> t.grows > 0 && Power(t.grows - 1) <= total)
  {
    RunKeeps(Start(expected), sizes);
    var t := Run(Start(expected), sizes);
    if t.grows > 0 {
      StepsIn(t.grows - 2, t.written);
      if !Exceeded(t) {
        StepsIn(t.grows - 1, t.written);
      }
    }
  }

  // ----- The file -----

  // An open file: writing may take fewer bytes than it was given, but takes some.
  class File {
    var content: Bytes
    var position: nat

    constructor ()
      ensures content == [] && position == 0
    {
      content, position := [], 0;
    }

    method Truncate(size: nat)
      modifies this`content
      ensures |content| == size
      ensures content[..Min(size, |old(content)|)] == old(content)[..Min(size, |old(content)|)]
    {
      if size <= |content| {
        content := content[..size];
      } else {
        content := content + seq(size - |content|, _ => 0 as Byte);
      }
    }

    method Put(data: Bytes) returns (n: nat)
      requires data != [] && position + |data| <= |content|
      modifies this
      ensures 1 <= n <= |data| && position == old(position) + n && |content| == |old(content)|
      ensures content[..position] == old(content)[..old(position)] + data[..n]
    {
      n :| 1 <= n <= |data|;
      content := content[..position] + data[..n] + content[position + n..];
      position := position + n;
    }

    method PutAll(data: Bytes)
      requires position + |data| <= |content|
      modifies this
      ensures position == old(position) + |data| && |content| == |old(content)|
      ensures content[..position] == old(content)[..old(position)] + data
    {
      var view := data;
      while view != []
        invariant |view| <= |data| && view == data[|data| - |view|..]
        invariant position == old(position) + |data| - |view| && |content| == |old(content)|
        invariant content[..position] == old(content)[..old(position)] + data[..|data| - |view|]
        decreases |view|
      {
        ghost var k := |data| - |view|;
        var n := Put(view);
        assert data[..k] + view[..n] == data[..k + n];
        view := view[n..];
      }
      assert data[..|data|] == data;
    }
  }

  class Upload {
    const fd: File
    const expected: Option<nat>
    var written: nat
    var space: nat
    ghost var grows: nat
    ghost var capped: nat

    constructor (fd: File, expected: Option<nat>)
      requires fd.content == [] && fd.position == 0
      ensures this.fd == fd && Valid() && Now() == Start(expected) && Written() == []
    {
      this.fd := fd;
      this.expected := expected;
      written, space, grows, capped := 0, 0, 0, 0;
    }

    ghost function Now(): State
      reads this
    {
      State(expected, written, space, grows, capped)
    }

    ghost predicate Valid()
      reads this, fd
    {
      fd.position == written <= space == |fd.content|
    }

    // What the file holds of the upload.
    ghost function Written(): Bytes
      requires Valid()
      reads this, fd
    {
      fd.content[..written]
    }

    method Write(data: Bytes)
      requires Valid()
      modifies this, fd
      ensures Valid() && Now() == Grown(old(Now()), |data|)
      ensures Written() == old(Written()) + data
    {
      var end := written + |data|;
      if end > space {
        space := end + GROW_STEP;
        if expected.Some? && expected.value > end {
          space := Min(expected.value, Max(space, 2 * end));
        }
        fd.Truncate(space);
        grows := grows + 1;
        capped := capped + if space < end + GROW_STEP then 1 else 0;
      }
      assert fd.content[..fd.position] == old(Written());
      fd.PutAll(data);
      written := end;
    }

    // Leaves exactly the bytes written.
    method Finish()
      requires Valid()
      modifies fd
      ensures fd.content == old(Written())
    {
      fd.Truncate(written);
      assert fd.content[..written] == fd.content;
    }
  }
}
