/** The delay before a claim is looked at again while the cache lags: it
    doubles up to a limit, by a shift of a 64-bit integer that overflows. */
module CacheLag {
  import opened Arithmetic
  import opened Common

  const MILLISECOND: int := 1000000
  const FIRST: int := 200 * MILLISECOND
  const MAX: int := 5000 * MILLISECOND
  const WIDTH: nat := 64

  const TWO_36: int := 0x10_0000_0000
  const TWO_45: int := 0x2000_0000_0000
  const TWO_63: int := 0x8000_0000_0000_0000
  const TWO_64: int := 0x1_0000_0000_0000_0000

  // What a signed 64-bit integer keeps of a value.
  function Wrapped(x: int): int {
    (x + TWO_63) % TWO_64 - TWO_63
  }

  function Shifted(x: int, n: nat): int {
    if n >= WIDTH then 0 else Wrapped(x * Power(n))
  }

  function DelayFor(attempts: int): int {
    if attempts <= 1 then FIRST
    else
      var delay := Shifted(FIRST, attempts - 1);
      if delay <= 0 || delay > MAX then MAX else delay
  }

  lemma {:induction false} Powers()
    ensures Power(5) == 32 && Power(35) == TWO_36 / 2 && Power(36) == TWO_36
  {
    assert Power(9) == 512;
    PowerAdds(9, 9);
    PowerAdds(18, 18);
  }

  // Wrapping keeps divisibility by a power of two.
  lemma {:induction false} WrapKeepsMultiple(q: int)
    ensures exists r :: Wrapped(TWO_45 * q) == TWO_45 * r
  {
    var x := TWO_45 * q;
    var d := (x + TWO_63) / TWO_64;
    assert Wrapped(x) == x - d * TWO_64;
    assert Wrapped(x) == TWO_45 * (q - d * 524288);
  }

  lemma {:induction false} SmallShift(n: nat)
    requires n <= 35
    ensures Shifted(FIRST, n) == FIRST * Power(n)
  {
    Powers();
    PowerGrows(n, 35);
  }

  lemma {:induction false} LargeShift(n: nat)
    requires 36 <= n < WIDTH
    ensures Shifted(FIRST, n) <= 0 || Shifted(FIRST, n) >= TWO_45
  {
    Powers();
    PowerAdds(36, n - 36);
    var q := 390625 * Power(n - 36);
    assert FIRST * Power(n) == TWO_45 * q;
    WrapKeepsMultiple(q);
    var r :| Wrapped(TWO_45 * q) == TWO_45 * r;
  }

  function Doubled(attempts: int): int {
    if attempts <= 1 then 200_000_000 else Min(200_000_000 * Power(attempts - 1), 5_000_000_000)
  }

  /** The delay is exact for every number of attempts, although the shift
      overflows: a positive value that wrapped is a multiple of 2^45, far
      past the limit. */
  lemma {:induction false} DelayIsExact(attempts: int)
    ensures DelayFor(attempts) == Doubled(attempts)
  {
    if attempts > 1 {
      var n := attempts - 1;
      Powers();
      if n <= 35 {
        SmallShift(n);
      } else {
        PowerGrows(36, n);
        assert FIRST * Power(n) >= FIRST * TWO_36 > MAX;
        if n < WIDTH {
          LargeShift(n);
        }
      }
    }
  }

  // ----- Attempts -----

  type Uid = string

  // What happens to one claim's name: another attempt by this claim, or a success.
  datatype Event = Attempt(uid: Uid) | Deleted

  datatype Entry = Entry(attempts: nat, uid: Uid)

  function Counted(e: Option<Entry>, event: Event): Option<Entry> {
    match event
    case Attempt(uid) => Some(Entry(1 + (if e.Some? && e.value.uid == uid then e.value.attempts else 0), uid))
    case Deleted => None
  }

  function After(h: seq<Event>): Option<Entry> {
    if h == [] then None else Counted(After(h[..|h| - 1]), h[|h| - 1])
  }

  // How many attempts by this claim end the history, with nothing else among them.
  predicate Streak(h: seq<Event>, uid: Uid, n: nat) {
    && n <= |h|
    && (forall i | |h| - n <= i < |h| :: h[i] == Attempt(uid))
    && (n < |h| ==> h[|h| - n - 1] != Attempt(uid))
  }

  lemma {:induction false} CountIsStreak(h: seq<Event>, uid: Uid)
    requires h != [] && h[|h| - 1] == Attempt(uid)
    ensures After(h).Some? && After(h).value.uid == uid && Streak(h, uid, After(h).value.attempts)
    decreases |h|
  {
    var last := |h| - 1;
    var rest := h[..last];
    assert h == rest + [h[last]];
    if last > 0 {
      if rest[last - 1] == Attempt(uid) {
        CountIsStreak(rest, uid);
      } else {
        OtherLast(rest, uid);
      }
    }
  }

  lemma {:induction false} OtherLast(h: seq<Event>, uid: Uid)
    requires h != [] && h[|h| - 1] != Attempt(uid)
    ensures After(h).None? || After(h).value.uid != uid
  {
  }

  class AttemptMap<Key(==,!new)> {
    var entries: map<Key, Entry>

    constructor ()
      ensures entries == map[]
    {
      entries := map[];
    }

    function At(key: Key): Option<Entry>
      reads this
    {
      if key in entries then Some(entries[key]) else None
    }

    method Increment(key: Key, uid: Uid) returns (attempts: nat)
      modifies this
      ensures At(key) == Counted(old(At(key)), Attempt(uid)) && attempts == At(key).value.attempts
      ensures entries - {key} == old(entries) - {key}
    {
      var entry := Entry(0, uid);
      if key in entries && entries[key].uid == uid {
        entry := entries[key];
      }
      entry := entry.(attempts := entry.attempts + 1);
      entries := entries[key := entry];
      return entry.attempts;
    }

    method Delete(key: Key)
      modifies this
      ensures At(key) == Counted(old(At(key)), Deleted)
      ensures entries - {key} == old(entries) - {key}
    {
      entries := entries - {key};
    }
  }

  /** The n-th consecutive attempt of one claim waits 200ms * 2^(n-1), at most
      5s; another claim of the same name starts again. */
  lemma {:induction false} NthAttemptWaits(h: seq<Event>, uid: Uid, n: nat)
    requires h != [] && h[|h| - 1] == Attempt(uid) && Streak(h, uid, n)
    ensures After(h) == Some(Entry(n, uid)) && DelayFor(After(h).value.attempts) == Doubled(n)
  {
    CountIsStreak(h, uid);
    StreakIsOne(h, uid, n, After(h).value.attempts);
    DelayIsExact(n);
  }

  lemma {:induction false} StreakIsOne(h: seq<Event>, uid: Uid, n: nat, m: nat)
    requires Streak(h, uid, n) && Streak(h, uid, m)
    ensures n == m
  {
  }
}
