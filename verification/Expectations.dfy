/** The tracker of in-flight Sandbox creations and deletions, per warm pool.

    A pool's outstanding record is a value; the tracker object keeps a map of
    them and changes it in place. Every method is tied to a function of the
    pool's old record, so the pool protocol (module WarmPoolProtocol) can run
    on the very same transitions. */
module Expectations {
  import opened Common

  type PoolKey = string
  type Uid = string

  // 5 minutes, in nanoseconds
  const TIMEOUT: int := 300_000_000_000

  datatype Record = Record(creations: int, deletions: set<Uid>, raisedAt: int)

  // Nothing is outstanding.
  predicate Clear(r: Record) { r.creations <= 0 && r.deletions == {} }

  // A record is kept only while something is outstanding.
  ghost predicate WellFormed(o: Option<Record>) {
    o.Some? ==> o.value.creations >= 0 && (o.value.creations > 0 || o.value.deletions != {})
  }

  function Pending(o: Option<Record>): (n: int) {
    if o.Some? then o.value.creations else 0
  }

  function PendingDeletions(o: Option<Record>): (d: set<Uid>) {
    if o.Some? then o.value.deletions else {}
  }

  predicate Outdated(o: Option<Record>, now: int) {
    o.Some? && now - o.value.raisedAt > TIMEOUT
  }

  predicate Fulfilled(o: Option<Record>) {
    o.None? || (o.value.creations <= 0 && o.value.deletions == {})
  }

  // The gate: nothing outstanding, or what is outstanding timed out.
  predicate Open(o: Option<Record>, now: int) {
    Fulfilled(o) || Outdated(o, now)
  }

  function Collected(o: Option<Record>, now: int): (r: Option<Record>)
    ensures Open(o, now) ==> r == None
    ensures !Open(o, now) ==> r == o
    ensures WellFormed(o) ==> WellFormed(r)
  {
    if Open(o, now) then None else o
  }

  function Expecting(o: Option<Record>, n: int, now: int): (r: Option<Record>)
    ensures WellFormed(o) ==> WellFormed(r)
  {
    if n > 0 && Open(o, now) then Some(Record(n, {}, now))
    else if n > 0 then Collected(o, now)
    else o
  }

  // Lowering saturates at zero and drops a record with nothing left in it.
  function Lowered(o: Option<Record>, n: int): (r: Option<Record>)
    ensures o.None? ==> r.None?
    ensures Pending(r) == if o.None? || Pending(o) <= n then 0 else Pending(o) - n
    ensures PendingDeletions(r) == PendingDeletions(o)
    ensures r.Some? ==> o.Some? && r.value.raisedAt == o.value.raisedAt
    ensures WellFormed(o) ==> WellFormed(r)
  {
    if o.None? then None
    else
      var left := if o.value.creations - n < 0 then 0 else o.value.creations - n;
      if left == 0 && o.value.deletions == {} then None
      else Some(o.value.(creations := left))
  }

  function WithDeletion(o: Option<Record>, uid: Uid, now: int): (r: Option<Record>)
    ensures Pending(r) == Pending(o)
    ensures PendingDeletions(r) == PendingDeletions(o) + (if uid == "" then {} else {uid})
    ensures uid == "" ==> r == o
    ensures uid != "" ==> r.Some? && r.value.raisedAt == now
    ensures WellFormed(o) ==> WellFormed(r)
  {
    if uid == "" then o
    else if o.None? then Some(Record(0, {uid}, now))
    else Some(Record(o.value.creations, o.value.deletions + {uid}, now))
  }

  function WithoutDeletion(o: Option<Record>, uid: Uid): (r: Option<Record>)
    ensures WellFormed(o) ==> Pending(r) == Pending(o) && WellFormed(r)
    ensures PendingDeletions(r) == PendingDeletions(o) - {uid}
    ensures r.Some? ==> o.Some? && r.value.raisedAt == o.value.raisedAt
  {
    if o.None? then None
    else
      var d := o.value.deletions - {uid};
      if o.value.creations <= 0 && d == {} then None
      else Some(o.value.(deletions := d))
  }

  predicate DeletionPending(o: Option<Record>, uid: Uid, now: int) {
    uid != "" && !Outdated(o, now) && uid in PendingDeletions(o)
  }

  function At(pools: map<PoolKey, Record>, key: PoolKey): (o: Option<Record>) {
    if key in pools then Some(pools[key]) else None
  }

  // The records after the record of one pool became o; the others are untouched.
  function Put(pools: map<PoolKey, Record>, key: PoolKey, o: Option<Record>): (p: map<PoolKey, Record>)
    ensures At(p, key) == o
    ensures forall k :: k != key ==> At(p, k) == At(pools, k)
  {
    if o.Some? then pools[key := o.value] else pools - {key}
  }

  /** The tracker object. Each method runs under one lock in the source, so
      each is one atomic change of the map. */
  class Tracker {
    var pools: map<PoolKey, Record>

    ghost predicate Valid()
      reads this
    {
      forall k | k in pools :: WellFormed(Some(pools[k]))
    }

    constructor ()
      ensures Valid() && pools == map[]
    {
      pools := map[];
    }

    method SatisfiedExpectations(key: PoolKey, now: int) returns (ok: bool)
      modifies this
      ensures old(Valid()) ==> Valid()
      ensures ok <==> key !in old(pools) || Clear(old(pools[key])) || now - old(pools[key]).raisedAt > 300_000_000_000
      ensures ok ==> pools == old(pools) - {key}
      ensures !ok ==> pools == old(pools)
      ensures ok <==> Open(old(At(pools, key)), now)
      ensures pools == Put(old(pools), key, Collected(old(At(pools, key)), now))
    {
      if key !in pools {
        assert pools - {key} == pools;
        return true;
      }
      var entry := pools[key];
      if entry.creations <= 0 && entry.deletions == {} {
        pools := pools - {key};
        return true;
      }
      if now - entry.raisedAt > TIMEOUT {
        pools := pools - {key};
        return true;
      }
      assert pools[key := entry] == pools;
      ok := false;
    }

    method TryExpectCreations(key: PoolKey, n: int, now: int) returns (ok: bool)
      modifies this
      ensures old(Valid()) ==> Valid()
      ensures ok <==>
        n > 0 && (key !in old(pools) || Clear(old(pools[key])) || now - old(pools[key]).raisedAt > 300_000_000_000)
      ensures ok ==> pools == old(pools)[key := Record(n, {}, now)]
      ensures !ok ==> pools == old(pools)
      ensures ok <==> n > 0 && Open(old(At(pools, key)), now)
      ensures pools == Put(old(pools), key, Expecting(old(At(pools, key)), n, now))
    {
      if n <= 0 {
        assert Put(pools, key, At(pools, key)) == pools;
        return false;
      }
      var satisfied := SatisfiedExpectations(key, now);
      if !satisfied {
        return false;
      }
      pools := pools[key := Record(n, {}, now)];
      assert pools == old(pools)[key := Record(n, {}, now)];
      ok := true;
    }

    method LowerCreations(key: PoolKey, n: int)
      requires Valid()
      modifies this
      ensures Valid()
      ensures pools == Put(old(pools), key, Lowered(old(At(pools, key)), n))
    {
      if key !in pools {
        assert pools - {key} == pools;
        return;
      }
      var entry := pools[key];
      entry := entry.(creations := entry.creations - n);
      if entry.creations < 0 {
        entry := entry.(creations := 0);
      }
      pools := pools[key := entry];
      if entry.creations == 0 && entry.deletions == {} {
        pools := pools - {key};
        assert pools == old(pools) - {key};
      }
    }

    // The watch handler's observation of one owned add event.
    method CreationObserved(key: PoolKey)
      requires Valid()
      modifies this
      ensures Valid()
      ensures pools == Put(old(pools), key, Lowered(old(At(pools, key)), 1))
    {
      LowerCreations(key, 1);
    }

    method ExpectDeletion(key: PoolKey, uid: Uid, now: int)
      requires Valid()
      modifies this
      ensures Valid()
      ensures pools == Put(old(pools), key, WithDeletion(old(At(pools, key)), uid, now))
    {
      if uid == "" {
        assert Put(pools, key, At(pools, key)) == pools;
        return;
      }
      if key !in pools {
        pools := pools[key := Record(0, {}, 0)];
      }
      var entry := pools[key];
      pools := pools[key := Record(entry.creations, entry.deletions + {uid}, now)];
      assert pools == Put(old(pools), key, WithDeletion(old(At(pools, key)), uid, now));
    }

    method DeletionObserved(key: PoolKey, uid: Uid)
      requires Valid()
      modifies this
      ensures Valid()
      ensures pools == Put(old(pools), key, WithoutDeletion(old(At(pools, key)), uid))
    {
      if key !in pools {
        assert pools - {key} == pools;
        return;
      }
      var entry := pools[key];
      entry := entry.(deletions := entry.deletions - {uid});
      pools := pools[key := entry];
      if entry.creations <= 0 && entry.deletions == {} {
        pools := pools - {key};
        assert pools == old(pools) - {key};
      }
    }

    method IsPendingDeletion(key: PoolKey, uid: Uid, now: int) returns (pending: bool)
      ensures pending <==>
        uid != "" && key in pools && uid in pools[key].deletions && now - pools[key].raisedAt <= 300_000_000_000
      ensures pending <==> DeletionPending(At(pools, key), uid, now)
    {
      if uid == "" || key !in pools {
        return false;
      }
      if now - pools[key].raisedAt > TIMEOUT {
        return false;
      }
      pending := uid in pools[key].deletions;
    }

    method Forget(key: PoolKey)
      requires Valid()
      modifies this
      ensures Valid()
      ensures pools == Put(old(pools), key, None)
    {
      pools := pools - {key};
    }
  }
}
