/** Deferring a recoverable write: a Pod's metadata patch waits out a short
    window, so that several changes make one patch, but never longer. */
module WriteDeferral {
  import opened Common

  const SECOND: int := 1000000000
  const FLUSH_BOUND: int := SECOND

  // The window in force.
  function Window(configured: int): int { if configured < FLUSH_BOUND then configured else FLUSH_BOUND }

  // Whether the write is due, how long it still waits, and since when it is pending.
  function Observed(first: Option<int>, window: int, now: int): (bool, int, Option<int>) {
    match first
    case None => (false, window, Some(now))
    case Some(t) => if now >= t + window then (true, 0, first) else (false, t + window - now, first)
  }

  /** One reconcile pass. drift: the Pod's metadata is not as it should be;
      deferrable: it is the only thing to write, on a Pod the Sandbox owns;
      failed: the pass ended with an error; other: how soon the pass asks to
      be repeated for other reasons, 0 for not at all. */
  datatype Pass = Pass(now: int, drift: bool, deferrable: bool, failed: bool, other: nat)

  datatype Outcome = Outcome(wrote: bool, requeue: int, first: Option<int>)

  function Sooner(a: int, b: int): int { if a == 0 || b < a then b else a }

  function Passed(first: Option<int>, window: int, p: Pass): Outcome {
    var (due, wait, pending) := if p.drift && p.deferrable then Observed(first, window, p.now) else (true, 0, first);
    var deferred := p.drift && !due;
    Outcome(p.drift && due,
            if deferred && !p.failed then Sooner(p.other, wait) else p.other,
            if deferred || p.failed then pending else None)
  }

  function After(first: Option<int>, window: int, passes: seq<Pass>): Option<int> {
    if passes == [] then first
    else Passed(After(first, window, passes[..|passes| - 1]), window, passes[|passes| - 1]).first
  }

  // The pass finds the change, and could defer it.
  predicate Finds(p: Pass) { p.drift && p.deferrable }

  // From the first on, each of these passes finds the change, or fails before it could.
  predicate Drifting(passes: seq<Pass>) {
    && (passes != [] ==> Finds(passes[0]))
    && forall i | 0 <= i < |passes| :: Finds(passes[i]) || (!passes[i].drift && passes[i].failed)
  }

  // No pass of these has written it: each came before the deadline, or failed.
  predicate StillPending(passes: seq<Pass>, deadline: int) {
    forall i | 0 < i < |passes| :: passes[i].now < deadline || passes[i].failed
  }

  lemma {:induction false} PendingSinceFirst(passes: seq<Pass>, window: int)
    requires passes != [] && window > 0 && Drifting(passes) && StillPending(passes, passes[0].now + window)
    ensures After(None, window, passes) == Some(passes[0].now)
  {
    var last := |passes| - 1;
    if last > 0 {
      PendingSinceFirst(passes[..last], window);
    } else {
      assert passes[..last] == [];
    }
  }

  /** Deferral is bounded and does not starve: as long as the write has not
      gone through, the next pass that finds the change writes it exactly when
      a window has passed since it was first seen, however many passes there
      were, and however many of them failed before they saw it; a pass that
      defers asks to be repeated no later than that moment. */
  lemma {:induction false} WritesAtDeadline(passes: seq<Pass>, next: Pass, configured: int)
    requires configured > 0 && passes != [] && Drifting(passes) && Finds(next)
    requires StillPending(passes, passes[0].now + Window(configured))
    ensures var deadline := passes[0].now + Window(configured);
      var o := Passed(After(None, Window(configured), passes), Window(configured), next);
      && deadline == passes[0].now + (if configured < 1_000_000_000 then configured else 1_000_000_000)
      && (o.wrote <==> next.now >= deadline)
      && (!o.wrote && !next.failed ==> 0 < o.requeue <= deadline - next.now)
      && (o.wrote && !next.failed ==> o.first == None)
      && (!o.wrote || next.failed ==> o.first == Some(passes[0].now))
    ensures !Passed(None, Window(configured), passes[0]).wrote
  {
    PendingSinceFirst(passes, Window(configured));
  }

  /** A pass that may not defer writes a change at once, and one that finds
      none writes nothing; neither asks to be repeated, and both forget what
      was pending unless they failed. */
  lemma {:induction false} OtherPasses(first: Option<int>, window: int, p: Pass)
    requires !Finds(p)
    ensures var o := Passed(first, window, p);
      (o.wrote <==> p.drift) && o.requeue == p.other && o.first == if p.failed then first else None
  {
  }

  // ----- The clock -----

  class Clock<Key(==,!new)> {
    var first: map<Key, int>

    constructor ()
      ensures first == map[]
    {
      first := map[];
    }

    function At(key: Key): Option<int>
      reads this
    {
      if key in first then Some(first[key]) else None
    }

    method Observe(key: Key, window: int, now: int) returns (due: bool, wait: int)
      modifies this
      ensures (due, wait, At(key)) == Observed(old(At(key)), window, now)
      ensures first - {key} == old(first) - {key}
    {
      if key !in first {
        first := first[key := now];
        return false, window;
      }
      var deadline := first[key] + window;
      if now >= deadline {
        return true, 0;
      }
      return false, deadline - now;
    }

    method Clear(key: Key)
      modifies this
      ensures At(key) == None && first - {key} == old(first) - {key}
    {
      first := first - {key};
    }
  }

  // One pass's view of the clock.
  class Deferral<Key(==,!new)> {
    const clock: Clock<Key>
    const key: Key
    const window: int
    var deferred: bool
    var wait: int

    constructor (clock: Clock<Key>, key: Key, configured: int)
      ensures this.clock == clock && this.key == key && window == Window(configured) && !deferred && wait == 0
    {
      this.clock, this.key, window := clock, key, Window(configured);
      deferred, wait := false, 0;
    }

    method ShouldWrite(now: int) returns (due: bool)
      modifies this, clock
      ensures var (d, w, pending) := Observed(old(clock.At(key)), window, now);
        && due == d && clock.At(key) == pending
        && (d ==> deferred == old(deferred) && wait == old(wait))
        && (!d ==> deferred && wait == Sooner(old(wait), w))
      ensures clock.first - {key} == old(clock.first) - {key}
    {
      var left;
      due, left := clock.Observe(key, window, now);
      if !due {
        deferred := true;
        if wait == 0 || left < wait {
          wait := left;
        }
      }
    }

    // The reconcile pass as far as the deferred write is concerned.
    method Reconcile(p: Pass) returns (wrote: bool, requeue: int)
      requires !deferred && wait == 0 && window > 0
      modifies this, clock
      ensures Outcome(wrote, requeue, clock.At(key)) == Passed(old(clock.At(key)), window, p)
    {
      wrote := false;
      requeue := p.other;
      if p.drift {
        wrote := true;
        if p.deferrable {
          wrote := ShouldWrite(p.now);
        }
      }
      if !p.failed {
        if deferred {
          if requeue == 0 || wait < requeue {
            requeue := wait;
          }
        } else {
          clock.Clear(key);
        }
      }
    }
  }
}
