/** The wait before a failed Pod is replaced: it doubles with each failure,
    and starts again only after a Pod has run undisturbed for long enough. */
module RecreateBackoff {
  import opened Arithmetic
  import opened Common

  const SECOND: int := 1000000000
  const BASE: int := 5 * SECOND
  const MAX: int := 300 * SECOND
  const RESET_AFTER: int := 600 * SECOND

  type Uid = string

  // running: the Pod that has been seen Running, and since when.
  datatype Entry = Entry(failures: nat, nextCreate: int, running: Option<(Uid, int)>)

  // The wait after the k-th failure.
  function DelayAfter(k: int): int {
    Min(if k > 1 then 5_000_000_000 * Power(k - 1) else 5_000_000_000, 300_000_000_000)
  }

  // Doubling stops before it could pass the greatest wait.
  method DelayForFailures(failures: int) returns (delay: int)
    ensures delay == DelayAfter(failures)
  {
    delay := BASE;
    var i := 1;
    while i < failures
      invariant 1 <= i && (i <= failures || i == 1)
      invariant delay == BASE * Power(i - 1) && BASE <= delay
    {
      if delay >= MAX / 2 {
        PowerGrows(i, failures - 1);
        assert BASE * Power(i) >= MAX;
        assert Power(failures - 1) >= Power(i);
        return MAX;
      }
      delay := delay * 2;
      i := i + 1;
    }
    return Min(delay, MAX);
  }

  // ----- One observation -----

  datatype Kind = Failed(uid: Uid) | Running(uid: Uid) | NotRunning | Cleared

  datatype Event = Event(now: int, kind: Kind)

  // A Pod that has been seen Running for the whole reset window.
  predicate Stable(e: Option<Entry>, uid: Uid, now: int) {
    e.Some? && e.value.running.Some? && e.value.running.value.0 == uid && now - e.value.running.value.1 >= RESET_AFTER
  }

  function Observed(e: Option<Entry>, event: Event): Option<Entry> {
    var now := event.now;
    match event.kind
    case Failed(uid) =>
      var failures := 1 + if e.None? || Stable(e, uid, now) then 0 else e.value.failures;
      Some(Entry(failures, now + DelayAfter(failures), None))
    case Running(uid) =>
      if e.None? || Stable(e, uid, now) then None
      else if e.value.running.Some? && e.value.running.value.0 == uid then e
      else Some(e.value.(running := Some((uid, now))))
    case NotRunning => if e.None? then None else Some(e.value.(running := None))
    case Cleared => None
  }

  function Wait(e: Option<Entry>, now: int): int {
    if e.Some? && e.value.nextCreate > now then e.value.nextCreate - now else 0
  }

  // ----- Whole histories -----

  function After(h: seq<Event>): Option<Entry> {
    if h == [] then None else Observed(After(h[..|h| - 1]), h[|h| - 1])
  }

  predicate Ordered(h: seq<Event>) {
    forall i, j | 0 <= i < j < |h| :: h[i].now <= h[j].now
  }

  // From j on, up to i, the Pod was only ever seen Running.
  predicate Undisturbed(h: seq<Event>, j: int, i: int, uid: Uid) {
    0 <= j < i <= |h| && forall m | j <= m < i :: h[m].kind == Running(uid)
  }

  /** Event i ends an incident: the state was cleared, or the Pod it is about
      was first seen Running a whole reset window earlier, and nothing else
      was seen since. */
  ghost predicate Ends(h: seq<Event>, i: int)
    requires 0 <= i < |h|
  {
    || h[i].kind.Cleared?
    || ((h[i].kind.Running? || h[i].kind.Failed?)
        && exists j :: Undisturbed(h, j, i, h[i].kind.uid) && h[i].now - h[j].now >= 600_000_000_000)
  }

  // The failures of the current incident.
  ghost function Incident(h: seq<Event>): nat {
    if h == [] then 0
    else
      var i := |h| - 1;
      (if Ends(h, i) then 0 else Incident(h[..i])) + if h[i].kind.Failed? then 1 else 0
  }

  function LastFailure(h: seq<Event>): int {
    if h == [] then 0
    else if h[|h| - 1].kind.Failed? then h[|h| - 1].now
    else LastFailure(h[..|h| - 1])
  }

  /** What the entry knows of the history: how many failures the incident has,
      when the last was, and since when the Pod has been seen Running. */
  ghost predicate Knows(h: seq<Event>, e: Option<Entry>) {
    && (e.Some? <==> Incident(h) > 0)
    && (e.Some? ==>
         && e.value.failures == Incident(h)
         && e.value.nextCreate == LastFailure(h) + DelayAfter(e.value.failures)
         && Tracks(h, e.value.running))
  }

  // The Running observation and where it began; before that, something else was seen.
  ghost predicate Tracks(h: seq<Event>, running: Option<(Uid, int)>) {
    match running
    case None => h == [] || !h[|h| - 1].kind.Running?
    case Some((uid, since)) => exists j :: Begins(h, j, uid) && h[j].now == since
  }

  ghost predicate Begins(h: seq<Event>, j: int, uid: Uid) {
    Undisturbed(h, j, |h|, uid) && (j == 0 || h[j - 1].kind != Running(uid))
  }

  lemma {:induction false} StableIsEnd(h: seq<Event>, running: Option<(Uid, int)>, event: Event, uid: Uid)
    requires Tracks(h, running) && running.Some? && running.value.0 == uid
    requires event.now - running.value.1 >= RESET_AFTER
    requires event.kind == Running(uid) || event.kind == Failed(uid)
    ensures Ends(h + [event], |h|)
  {
    var g := h + [event];
    var j :| Begins(h, j, uid) && h[j].now == running.value.1;
    assert forall m | j <= m < |h| :: g[m] == h[m];
    assert Undisturbed(g, j, |h|, uid);
  }

  // Where an undisturbed stretch of Running ends, its beginning is the one tracked.
  lemma {:induction false} TracksBeginning(h: seq<Event>, running: Option<(Uid, int)>, uid: Uid, j: nat)
    requires Tracks(h, running) && Undisturbed(h, j, |h|, uid) && Ordered(h)
    ensures running.Some? && running.value.0 == uid && running.value.1 <= h[j].now
  {
    assert h[|h| - 1].kind == Running(uid);
    var (u, since) := running.value;
    var b :| Begins(h, b, u) && h[b].now == since;
    assert h[|h| - 1].kind == Running(u);
    assert b <= j;
  }

  lemma {:induction false} StableEnds(h: seq<Event>, e: Option<Entry>, event: Event, uid: Uid)
    requires Knows(h, e) && e.Some? && Ordered(h + [event])
    requires event.kind == Running(uid) || event.kind == Failed(uid)
    ensures Stable(e, uid, event.now) <==> Ends(h + [event], |h|)
  {
    var g := h + [event];
    if Stable(e, uid, event.now) {
      StableIsEnd(h, e.value.running, event, uid);
    }
    if Ends(g, |h|) {
      var j :| Undisturbed(g, j, |h|, uid) && event.now - g[j].now >= RESET_AFTER;
      assert forall m | 0 <= m < |h| :: g[m] == h[m];
      TracksBeginning(h, e.value.running, uid, j);
    }
  }

  lemma {:induction false} TracksOn(h: seq<Event>, e: Option<Entry>, event: Event)
    requires Knows(h, e) && Observed(e, event).Some?
    ensures Tracks(h + [event], Observed(e, event).value.running)
  {
    var g := h + [event];
    assert forall m | 0 <= m < |h| :: g[m] == h[m];
    if event.kind.Running? {
      var uid := event.kind.uid;
      if e.value.running.Some? && e.value.running.value.0 == uid {
        var j :| Begins(h, j, uid) && h[j].now == e.value.running.value.1;
        assert Begins(g, j, uid) && g[j].now == h[j].now;
      } else {
        if e.value.running.Some? {
          var u := e.value.running.value.0;
          var j :| Begins(h, j, u) && h[j].now == e.value.running.value.1;
          assert h[|h| - 1].kind == Running(u);
        }
        assert Begins(g, |h|, uid) && g[|h|].now == event.now;
      }
    }
  }

  lemma {:induction false} KnowsOn(h: seq<Event>, e: Option<Entry>, event: Event)
    requires Knows(h, e) && Ordered(h + [event])
    ensures Knows(h + [event], Observed(e, event))
  {
    var g := h + [event];
    assert g[..|h|] == h;
    if e.Some? && (event.kind.Running? || event.kind.Failed?) {
      StableEnds(h, e, event, event.kind.uid);
    }
    if Observed(e, event).Some? {
      TracksOn(h, e, event);
    }
  }

  lemma {:induction false} AlwaysKnows(h: seq<Event>)
    requires Ordered(h)
    ensures Knows(h, After(h))
  {
    if h != [] {
      var last := |h| - 1;
      AlwaysKnows(h[..last]);
      assert h == h[..last] + [h[last]];
      KnowsOn(h[..last], After(h[..last]), h[last]);
    }
  }

  /** The backoff over whole histories: a replacement is held back exactly
      while an incident has failures and the wait for their number has not
      passed since the last of them. The count starts again only at an event
      that ends the incident. */
  lemma {:induction false} BackoffIsExact(h: seq<Event>, now: int)
    requires Ordered(h)
    ensures Wait(After(h), now) > 0 <==> Incident(h) > 0 && now < LastFailure(h) + DelayAfter(Incident(h))
    ensures Incident(h) > 0 ==>
      Wait(After(h), now) == if now < LastFailure(h) + DelayAfter(Incident(h)) then LastFailure(h) + DelayAfter(Incident(h)) - now else 0
  {
    AlwaysKnows(h);
  }

  // The k-th failure of an incident holds the next create back for its full wait.
  lemma {:induction false} FailureHoldsBack(h: seq<Event>, failure: Event, now: int)
    requires Ordered(h + [failure]) && failure.kind.Failed? && now >= failure.now
    ensures var k := Incident(h + [failure]);
      && k == 1 + (if Ends(h + [failure], |h|) then 0 else Incident(h))
      && (Wait(After(h + [failure]), now) == 0 <==> now >= failure.now + DelayAfter(k))
  {
    var g := h + [failure];
    assert g[..|h|] == h;
    BackoffIsExact(g, now);
  }

  // ----- The tracker -----

  class Tracker<Key(==,!new)> {
    var entries: map<Key, Entry>

    constructor ()
      ensures entries == map[]
    {
      entries := map[];
    }

    function At(key: Key): Option<Entry>
      reads this
    {
      if key in entries then Some(entries[key]) else None
    }

    method Delay(key: Key, now: int) returns (wait: int)
      ensures wait == Wait(At(key), now)
    {
      if key !in entries {
        return 0;
      }
      wait := entries[key].nextCreate - now;
      if wait <= 0 {
        return 0;
      }
    }

    // Returns how long the Pod must still run before the count starts again.
    method ObserveRunning(key: Key, uid: Uid, now: int) returns (left: int)
      modifies this
      ensures At(key) == Observed(old(At(key)), Event(now, Running(uid)))
      ensures entries - {key} == old(entries) - {key}
      ensures At(key).None? ==> left == 0
      ensures At(key).Some? ==> At(key).value.running.Some? && left == At(key).value.running.value.1 + RESET_AFTER - now
    {
      if key !in entries {
        return 0;
      }
      var e := entries[key];
      if e.running.None? || e.running.value.0 != uid {
        entries := entries[key := e.(running := Some((uid, now)))];
        return RESET_AFTER;
      }
      var elapsed := now - e.running.value.1;
      if elapsed >= RESET_AFTER {
        entries := entries - {key};
        return 0;
      }
      return RESET_AFTER - elapsed;
    }

    method ResetRunningObservation(key: Key, ghost now: int)
      modifies this
      ensures At(key) == Observed(old(At(key)), Event(now, NotRunning))
      ensures entries - {key} == old(entries) - {key}
    {
      if key !in entries || entries[key].running.None? {
        return;
      }
      entries := entries[key := entries[key].(running := None)];
    }

    method RecordFailure(key: Key, uid: Uid, now: int) returns (delay: int)
      modifies this
      ensures At(key) == Observed(old(At(key)), Event(now, Failed(uid)))
      ensures entries - {key} == old(entries) - {key}
      ensures At(key).Some? && delay == At(key).value.nextCreate - now
    {
      var failures := 0;
      if key in entries {
        var e := entries[key];
        if !(e.running.Some? && e.running.value.0 == uid && now - e.running.value.1 >= RESET_AFTER) {
          failures := e.failures;
        }
      }
      failures := failures + 1;
      delay := DelayForFailures(failures);
      entries := entries[key := Entry(failures, now + delay, None)];
    }

    method Clear(key: Key, ghost now: int)
      modifies this
      ensures At(key) == Observed(old(At(key)), Event(now, Cleared))
      ensures entries - {key} == old(entries) - {key}
    {
      entries := entries - {key};
    }
  }
}
