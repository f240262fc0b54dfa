/** The API server's log of Sandbox events, as one warm pool reads it.

    The truth is the replay of the whole log; what the informer store shows is
    the replay of a prefix. Revisions are positions in the log, so an
    optimistic lock is a comparison of positions. */
module WarmPoolLog {
  import opened Expectations

  // The controller reference of a Sandbox, seen from one pool.
  datatype Owner = Orphan | ThisPool | Foreign

  // warm: the launch-type label is set.
  datatype Sandbox = Sandbox(owner: Owner, deleting: bool, warm: bool)

  datatype Event = Added(uid: Uid, sb: Sandbox) | Modified(uid: Uid, sb: Sandbox) | Deleted(uid: Uid, sb: Sandbox)

  datatype Entry = Entry(sb: Sandbox, rev: nat)

  type Objects = map<Uid, Entry>

  function Applied(m: Objects, e: Event, rev: nat): Objects {
    match e
    case Added(u, sb) => m[u := Entry(sb, rev)]
    case Modified(u, sb) => m[u := Entry(sb, rev)]
    case Deleted(u, _) => m - {u}
  }

  function Replay(log: seq<Event>): Objects {
    if log == [] then map[]
    else Applied(Replay(log[..|log| - 1]), log[|log| - 1], |log| - 1)
  }

  function Born(log: seq<Event>): set<Uid> {
    set i | 0 <= i < |log| && log[i].Added? :: log[i].uid
  }

  // What the life of one Sandbox may turn a into: a deletion is final, no one
  // takes a Sandbox back from another controller, and an object that is going
  // away never becomes the pool's.
  ghost predicate Leads(a: Sandbox, b: Sandbox) {
    && (a.deleting ==> b.deleting)
    && (a.owner.Foreign? ==> b.owner.Foreign?)
    && (a.deleting && !a.owner.ThisPool? ==> !b.owner.ThisPool?)
  }

  ghost predicate Fits(log: seq<Event>, e: Event) {
    match e
    case Added(u, _) => u !in Born(log)
    case Modified(u, sb) => u in Replay(log) && Leads(Replay(log)[u].sb, sb)
    case Deleted(u, sb) => u in Replay(log) && Replay(log)[u].sb == sb
  }

  // Every event fits the state it was committed on; UIDs are never reused.
  ghost predicate History(log: seq<Event>) {
    log != [] ==> History(log[..|log| - 1]) && Fits(log[..|log| - 1], log[|log| - 1])
  }

  function Owned(m: Objects): set<Uid> {
    set u | u in m && m[u].sb.owner.ThisPool?
  }

  predicate OwnAdd(e: Event) {
    e.Added? && e.sb.owner.ThisPool?
  }

  function OwnAdds(events: seq<Event>): set<Uid> {
    set i | 0 <= i < |events| && OwnAdd(events[i]) :: events[i].uid
  }

  function CountOwnAdds(events: seq<Event>): nat {
    if events == [] then 0
    else CountOwnAdds(events[..|events| - 1]) + (if OwnAdd(events[|events| - 1]) then 1 else 0)
  }

  lemma {:induction false} ReplayExtend(log: seq<Event>, e: Event)
    ensures Replay(log + [e]) == Applied(Replay(log), e, |log|)
    ensures Born(log + [e]) == Born(log) + (if e.Added? then {e.uid} else {})
    ensures History(log + [e]) <==> History(log) && Fits(log, e)
  {
    var next := log + [e];
    assert next[..|next| - 1] == log;
    assert forall i | 0 <= i < |log| :: next[i] == log[i];
    assert next[|log|] == e;
    forall u | u in Born(log)
      ensures u in Born(next)
    {
      var i :| 0 <= i < |log| && log[i].Added? && log[i].uid == u;
      assert next[i].Added? && next[i].uid == u;
    }
    if e.Added? {
      assert next[|log|].Added?;
    }
  }

  lemma {:induction false} Prefix(log: seq<Event>, n: nat)
    requires History(log) && n <= |log|
    ensures History(log[..n])
    decreases |log|
  {
    if n < |log| {
      Prefix(log[..|log| - 1], n);
      assert log[..|log| - 1][..n] == log[..n];
    } else {
      assert log[..n] == log;
    }
  }

  lemma {:induction false} ReplayedWasBorn(log: seq<Event>, u: Uid)
    requires History(log) && u in Replay(log)
    ensures u in Born(log)
    ensures Replay(log)[u].rev < |log|
    ensures var e := log[Replay(log)[u].rev]; !e.Deleted? && e.uid == u && e.sb == Replay(log)[u].sb
    decreases |log|
  {
    var n := |log| - 1;
    var before, e := log[..n], log[n];
    assert log == before + [e];
    ReplayExtend(before, e);
    if u in Replay(before) {
      ReplayedWasBorn(before, u);
    }
  }

  lemma {:induction false} BornGrows(log: seq<Event>, n: nat)
    requires n <= |log|
    ensures Born(log[..n]) <= Born(log)
  {
    forall u | u in Born(log[..n])
      ensures u in Born(log)
    {
      var i :| 0 <= i < n && log[..n][i].Added? && log[..n][i].uid == u;
      assert log[i] == log[..n][i];
    }
  }

  /** A view of a prefix against the truth: what is in both only moved along
      its life, and equal revisions mean equal objects. */
  lemma {:induction false} ViewLeadsToTruth(log: seq<Event>, n: nat, u: Uid)
    requires History(log) && n <= |log|
    requires u in Replay(log) && u in Replay(log[..n])
    ensures Leads(Replay(log[..n])[u].sb, Replay(log)[u].sb)
    ensures Replay(log[..n])[u].rev <= Replay(log)[u].rev
    ensures Replay(log[..n])[u].rev == Replay(log)[u].rev ==> Replay(log[..n])[u] == Replay(log)[u]
    decreases |log|
  {
    if n == |log| {
      assert log[..n] == log;
    } else {
      var before, e := log[..|log| - 1], log[|log| - 1];
      assert log == before + [e] && before[..n] == log[..n];
      ReplayExtend(before, e);
      Prefix(log, n);
      ReplayedWasBorn(log[..n], u);
      BornGrows(before, n);
      ViewLeadsToTruth(before, n, u);
    }
  }

  /** What exists now but is missing from the view of a prefix was added after
      that prefix. */
  lemma {:induction false} MissingIsLater(log: seq<Event>, n: nat, u: Uid)
    requires History(log) && n <= |log|
    requires u in Replay(log) && u !in Replay(log[..n])
    ensures u !in Born(log[..n])
    decreases |log|
  {
    assert log[..|log|] == log;
    if n < |log| {
      var before, e := log[..|log| - 1], log[|log| - 1];
      assert log == before + [e] && before[..n] == log[..n];
      ReplayExtend(before, e);
      BornGrows(before, n);
      if u in Replay(before) {
        MissingIsLater(before, n, u);
      }
    }
  }

  lemma {:induction false} OwnAddsCounted(events: seq<Event>)
    ensures |OwnAdds(events)| <= CountOwnAdds(events)
    ensures CountOwnAdds(events) == 0 ==> OwnAdds(events) == {}
  {
    if events != [] {
      var n := |events| - 1;
      var rest, e := events[..n], events[n];
      OwnAddsCounted(rest);
      assert OwnAdds(events) <= OwnAdds(rest) + {e.uid} && (!OwnAdd(e) ==> OwnAdds(events) <= OwnAdds(rest)) by {
        forall u | u in OwnAdds(events)
          ensures u in OwnAdds(rest) || (OwnAdd(e) && u == e.uid)
        {
          var i :| 0 <= i < |events| && OwnAdd(events[i]) && events[i].uid == u;
          if i < n {
            assert rest[i] == events[i];
          }
        }
      }
      SubsetSize(OwnAdds(events), if OwnAdd(e) then OwnAdds(rest) + {e.uid} else OwnAdds(rest));
    }
  }

  lemma {:induction false} SubsetSize<T>(a: set<T>, b: set<T>)
    requires a <= b
    ensures |a| <= |b|
    decreases a
  {
    if x :| x in a {
      SubsetSize(a - {x}, b - {x});
    }
  }

  lemma {:induction false} CountSplits(a: seq<Event>, b: seq<Event>)
    ensures CountOwnAdds(a + b) == CountOwnAdds(a) + CountOwnAdds(b)
    decreases b
  {
    if b == [] {
      assert a + b == a;
    } else {
      var n := |b| - 1;
      CountSplits(a, b[..n]);
      assert (a + b)[..|a + b| - 1] == a + b[..n];
    }
  }
}
