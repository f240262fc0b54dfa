/** Byte strings and the search for a token in them. */
module Bytes {

  newtype Byte = x: int | 0 <= x < 256

  type Bytes = seq<Byte>

  const TAB: Byte := 9
  const LF: Byte := 10
  const CR: Byte := 13
  const SPACE: Byte := 32
  const DASH: Byte := 45
  const SEMICOLON: Byte := 59

  const CRLF: Bytes := [CR, LF]

  predicate Occurs(w: Bytes, t: Bytes, p: int) {
    0 <= p && p + |t| <= |w| && w[p..p + |t|] == t
  }

  // The position of the first occurrence at or after p, or -1.
  function FindFrom(w: Bytes, t: Bytes, p: nat): (i: int)
    ensures i == -1 ==> forall q | p <= q :: !Occurs(w, t, q)
    ensures i != -1 ==> p <= i && Occurs(w, t, i) && forall q | p <= q < i :: !Occurs(w, t, q)
    decreases |w| - p
  {
    if p + |t| > |w| then -1
    else if w[p..p + |t|] == t then p
    else FindFrom(w, t, p + 1)
  }

  function Find(w: Bytes, t: Bytes): (i: int)
    ensures i == -1 ==> forall q :: !Occurs(w, t, q)
    ensures i != -1 ==> 0 <= i && Occurs(w, t, i) && forall q | q < i :: !Occurs(w, t, q)
  {
    FindFrom(w, t, 0)
  }

  lemma {:induction false} FindIs(w: Bytes, t: Bytes, i: nat)
    requires Occurs(w, t, i) && forall q | 0 <= q < i :: !Occurs(w, t, q)
    ensures Find(w, t) == i
  {
  }

  lemma {:induction false} NotThere(w: Bytes, t: Bytes, p: nat, k: nat)
    requires p + |t| <= |w| && k < |t| && w[p + k] != t[k]
    ensures !Occurs(w, t, p)
  {
    assert w[p..p + |t|][k] == w[p + k];
  }

  // An occurrence that ends inside a prefix is an occurrence in the prefix.
  lemma {:induction false} OccursInPrefix(w: Bytes, v: Bytes, t: Bytes, p: int)
    requires 0 <= p && p + |t| <= |w|
    ensures Occurs(w + v, t, p) <==> Occurs(w, t, p)
  {
    assert (w + v)[p..p + |t|] == w[p..p + |t|];
  }

  lemma {:induction false} FoundStays(w: Bytes, v: Bytes, t: Bytes)
    requires Find(w, t) >= 0
    ensures Find(w + v, t) == Find(w, t)
  {
    var i := Find(w, t);
    OccursInPrefix(w, v, t, i);
    forall q | 0 <= q < i
      ensures !Occurs(w + v, t, q)
    {
      OccursInPrefix(w, v, t, q);
    }
    FindIs(w + v, t, i);
  }

  // What a failed search of a prefix rules out.
  lemma {:induction false} NotFoundYet(w: Bytes, v: Bytes, t: Bytes, p: int)
    requires Find(w, t) == -1 && Occurs(w + v, t, p)
    ensures |w| < p + |t|
  {
    if p + |t| <= |w| {
      OccursInPrefix(w, v, t, p);
    }
  }

  // Dropping a part in which no occurrence starts shifts the first one.
  lemma {:induction false} FindShift(u: Bytes, w: Bytes, t: Bytes)
    requires forall p | 0 <= p < |u| :: !Occurs(u + w, t, p)
    ensures Find(u + w, t) == if Find(w, t) == -1 then -1 else |u| + Find(w, t)
  {
    var i := Find(w, t);
    forall p | |u| <= p
      ensures Occurs(u + w, t, p) <==> Occurs(w, t, p - |u|)
    {
      if p + |t| <= |u + w| {
        assert (u + w)[p..p + |t|] == w[p - |u|..p - |u| + |t|];
      }
    }
    if i >= 0 {
      assert Occurs(u + w, t, |u| + i);
      forall q | 0 <= q < |u| + i
        ensures !Occurs(u + w, t, q)
      {
        if |u| <= q {
          assert !Occurs(w, t, q - |u|);
        }
      }
      FindIs(u + w, t, |u| + i);
    } else {
      forall q
        ensures !Occurs(u + w, t, q)
      {
        if |u| <= q {
          assert !Occurs(w, t, q - |u|);
        }
      }
    }
  }

  predicate Contains(w: Bytes, t: Bytes) {
    Find(w, t) != -1
  }

  /** A token that starts with a byte it does not repeat is found right after
      any text that does not contain it. */
  lemma {:induction false} FoundAfter(u: Bytes, t: Bytes, v: Bytes)
    requires t != [] && (forall k | 0 < k < |t| :: t[k] != t[0])
    requires !Contains(u, t)
    ensures Find(u + t + v, t) == |u|
  {
    var w := u + t + v;
    assert w[|u|..|u| + |t|] == t;
    forall p | 0 <= p < |u|
      ensures !Occurs(w, t, p)
    {
      assert w == u + (t + v);
      if p + |t| <= |u| {
        OccursInPrefix(u, t + v, t, p);
      } else if p + |t| <= |w| {
        assert w[p..p + |t|][|u| - p] == w[|u|] == t[0] != t[|u| - p];
      }
    }
    FindIs(w, t, |u|);
  }
}
