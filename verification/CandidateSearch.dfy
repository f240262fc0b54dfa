/** The search for a warm sandbox to adopt: keys are taken off the pool's
    queue until one is good enough, and those set aside go back. */
module CandidateSearch {
  import opened Common
  import opened NodeSpread

  type Id = (string, string)

  function IdOf(k: Key): Id { (k.namespace, k.name) }

  function Ids(keys: seq<Key>): set<Id> {
    set i | 0 <= i < |keys| :: IdOf(keys[i])
  }

  ghost predicate Distinct(keys: seq<Key>) {
    forall i, j | 0 <= i < j < |keys| :: IdOf(keys[i]) != IdOf(keys[j])
  }

  lemma {:induction false} IdsOfAppended(keys: seq<Key>, k: Key)
    ensures Ids(keys + [k]) == Ids(keys) + {IdOf(k)}
    ensures Distinct(keys) && IdOf(k) !in Ids(keys) ==> Distinct(keys + [k])
  {
    assert forall i | 0 <= i < |keys| :: (keys + [k])[i] == keys[i];
    assert (keys + [k])[|keys|] == k;
    forall id | id in Ids(keys)
      ensures id in Ids(keys + [k])
    {
      var i :| 0 <= i < |keys| && IdOf(keys[i]) == id;
      assert IdOf((keys + [k])[i]) == id;
    }
  }

  lemma {:induction false} IdsWithout(keys: seq<Key>, i: nat)
    requires i < |keys| && Distinct(keys)
    ensures Distinct(Without(keys, i)) && Ids(Without(keys, i)) == Ids(keys) - {IdOf(keys[i])}
  {
    var w := Without(keys, i);
    forall j | 0 <= j < |keys| && j != i
      ensures IdOf(keys[j]) in Ids(w)
    {
      assert keys[j] == w[if j < i then j else j - 1];
    }
  }

  /** The queue of one pool: keys in the order they came, at most one for
      each sandbox. */
  class Queue {
    var items: seq<Key>
    var ids: set<Id>

    constructor ()
      ensures Valid() && items == []
    {
      items, ids := [], {};
    }

    ghost predicate Valid()
      reads this
    {
      Distinct(items) && ids == Ids(items)
    }

    // A key already there keeps its place, and takes the new node.
    method Push(key: Key)
      requires Valid()
      modifies this
      ensures Valid() && ids == old(ids) + {IdOf(key)}
      ensures if IdOf(key) in old(ids)
              then |items| == |old(items)|
                   && (forall j | 0 <= j < |items| :: IdOf(items[j]) == IdOf(old(items)[j]))
                   && (forall j | 0 <= j < |items| :: items[j] == if IdOf(items[j]) == IdOf(key) then key else old(items)[j])
              else items == old(items) + [key]
    {
      if IdOf(key) !in ids {
        ids := ids + {IdOf(key)};
        IdsOfAppended(items, key);
        items := items + [key];
      } else {
        var i := IndexOf(IdOf(key));
        items := items[i := key];
        assert forall j | 0 <= j < |items| :: IdOf(items[j]) == IdOf(old(items)[j]);
        assert Ids(items) == Ids(old(items));
      }
    }

    method IndexOf(id: Id) returns (i: nat)
      requires Valid() && id in ids
      ensures i < |items| && IdOf(items[i]) == id
    {
      i := 0;
      while IdOf(items[i]) != id
        invariant i < |items| && forall j | 0 <= j < i :: IdOf(items[j]) != id
        decreases |items| - i
      {
        i := i + 1;
      }
    }

    method Remove(id: Id)
      requires Valid()
      modifies this
      ensures Valid() && ids == old(ids) - {id}
      ensures id !in old(ids) ==> items == old(items)
      ensures id in old(ids) ==> exists i :: 0 <= i < |old(items)| && IdOf(old(items)[i]) == id && items == Without(old(items), i)
    {
      if id !in ids {
        return;
      }
      var i := IndexOf(id);
      IdsWithout(items, i);
      items, ids := Without(items, i), ids - {id};
    }

    // Takes off the key that is picked.
    method Pop() returns (key: Option<Key>)
      requires Valid()
      modifies this
      ensures Valid() && (key.None? <==> old(items) == [])
      ensures key.None? ==> items == old(items) && ids == old(ids)
      ensures key.Some? ==>
        && IdOf(key.value) in old(ids) && ids == old(ids) - {IdOf(key.value)}
        && exists i :: 0 <= i < |old(items)| && Picked(old(items), i) && old(items)[i] == key.value
                       && items == Without(old(items), i)
    {
      if items == [] {
        return None;
      }
      var _, i := PickSmart(items);
      key := Some(items[i]);
      IdsWithout(items, i);
      items, ids := Without(items, i), ids - {IdOf(items[i])};
    }
  }

  // ----- The search -----

  // What looking a key's sandbox up finds.
  datatype Seen =
    | Missing
    | Unreadable
    | Unadoptable
    | Foreign
    | Adoptable(stale: bool, networked: bool, node: string, ready: bool)

  // How the pool replaces its sandboxes, as far as it could be found out.
  datatype Strategy = Unresolved | Recreate | OnReplenish

  // Stop ends the search with an error; Aside goes back; Spare is taken only if nothing better is.
  datatype Verdict = Drop | Stop | Aside | Spare | Take

  function Judged(seen: Seen, strategy: Strategy): Verdict {
    match seen
    case Missing => Drop
    case Unreadable => Stop
    case Unadoptable => Drop
    case Foreign => Aside
    case Adoptable(stale, networked, _, ready) =>
      if strategy.Unresolved? then Aside
      else if strategy.Recreate? && stale then Drop
      else if !networked then Aside
      else if ready then Take
      else Spare
  }

  // A sandbox whose network was not seen yet.
  predicate Pending(seen: Seen, strategy: Strategy) {
    seen.Adoptable? && !seen.networked && Judged(seen, strategy) == Aside
  }

  function Refreshed(key: Key, seen: Seen, strategy: Strategy): Key {
    if Pending(seen, strategy) && !strategy.Unresolved? && seen.node != "" then key.(node := seen.node) else key
  }

  // What the search has set aside.
  datatype Sieve = Sieve(skipped: seq<Key>, fallback: Option<Key>, pending: nat)

  function Sieved(s: Sieve, key: Key, seen: Seen, strategy: Strategy): Sieve {
    var counted := s.(pending := s.pending + if Pending(seen, strategy) then 1 else 0);
    match Judged(seen, strategy)
    case Aside => counted.(skipped := s.skipped + [Refreshed(key, seen, strategy)])
    case Spare => if s.fallback.None? then counted.(fallback := Some(key)) else counted.(skipped := s.skipped + [key])
    case _ => counted
  }

  // ----- What a search promises, in terms of what was seen -----

  // A sandbox that the claim may be given.
  predicate Usable(seen: Seen, strategy: Strategy) {
    && seen.Adoptable? && seen.networked
    && (strategy.OnReplenish? || (strategy.Recreate? && !seen.stale))
  }

  // One whose key is dropped: gone, not adoptable, or stale where the pool recreates.
  predicate Dropped(seen: Seen, strategy: Strategy) {
    seen.Missing? || seen.Unadoptable? || (seen.Adoptable? && seen.stale && strategy.Recreate?)
  }

  // One that may be usable once its network is up.
  predicate Waiting(seen: Seen, strategy: Strategy) {
    seen.Adoptable? && !seen.networked && !(seen.stale && strategy.Recreate?)
  }

  predicate Final(seen: Seen, strategy: Strategy) {
    seen.Unreadable? || (Usable(seen, strategy) && seen.ready)
  }

  /** The keys were taken off the queue in this order, each time the one that
      is picked, and the rest is left. */
  ghost predicate TakenOff(items: seq<Key>, order: seq<Key>, rest: seq<Key>)
    decreases |order|
  {
    if order == [] then rest == items
    else exists left, i ::
      && TakenOff(items, order[..|order| - 1], left)
      && 0 <= i < |left| && Picked(left, i)
      && left[i] == order[|order| - 1] && rest == Without(left, i)
  }

  // The first usable one.
  function FirstUsable(order: seq<Key>, look: Id -> Seen, strategy: Strategy): (r: Option<Key>)
    ensures r.None? <==> forall k | 0 <= k < |order| :: !Usable(look(IdOf(order[k])), strategy)
    ensures r.Some? ==> exists i ::
      && 0 <= i < |order| && order[i] == r.value && Usable(look(IdOf(order[i])), strategy)
      && forall k | 0 <= k < i :: !Usable(look(IdOf(order[k])), strategy)
  {
    if order == [] then None
    else
      var first := FirstUsable(order[..|order| - 1], look, strategy);
      var key := order[|order| - 1];
      if first.None? && Usable(look(IdOf(key)), strategy) then Some(key) else first
  }

  // A waiting sandbox is put back with the node it was seen on.
  function PutBackAs(key: Key, seen: Seen, strategy: Strategy): Key {
    if Waiting(seen, strategy) && !strategy.Unresolved? && seen.node != "" then key.(node := seen.node) else key
  }

  // The keys to put back, in order, but for the first usable one.
  function Others(order: seq<Key>, look: Id -> Seen, strategy: Strategy): seq<Key> {
    if order == [] then []
    else
      var before, key := order[..|order| - 1], order[|order| - 1];
      var seen := look(IdOf(key));
      var first := Usable(seen, strategy) && FirstUsable(before, look, strategy).None?;
      Others(before, look, strategy)
      + if Dropped(seen, strategy) || first then [] else [PutBackAs(key, seen, strategy)]
  }

  function CountWaiting(order: seq<Key>, look: Id -> Seen, strategy: Strategy): nat {
    if order == [] then 0
    else CountWaiting(order[..|order| - 1], look, strategy)
         + if Waiting(look(IdOf(order[|order| - 1])), strategy) then 1 else 0
  }

  ghost predicate NoneFinal(order: seq<Key>, look: Id -> Seen, strategy: Strategy) {
    forall k | 0 <= k < |order| :: !Final(look(IdOf(order[k])), strategy)
  }

  function Listed(key: Option<Key>): seq<Key> {
    if key.Some? then [key.value] else []
  }

  /** Keys are taken off until one is final, or none is left. A ready one is
      returned at once; an unreadable one fails the search; otherwise the first
      usable one is returned. All others go back behind the rest, in order. */
  ghost predicate Promised(items: seq<Key>, after: seq<Key>, found: Option<Key>, failed: bool, pending: nat,
                           order: seq<Key>, last: Option<Key>, rest: seq<Key>, look: Id -> Seen, strategy: Strategy) {
    var spare := FirstUsable(order, look, strategy);
    && TakenOff(items, order + Listed(last), rest) && NoneFinal(order, look, strategy)
    && pending == CountWaiting(order, look, strategy)
    && if last.None? then
         rest == [] && found == spare && !failed && after == Others(order, look, strategy)
       else
         var seen := look(IdOf(last.value));
         && Final(seen, strategy) && (failed <==> seen.Unreadable?)
         && found == (if failed then None else last)
         && after == rest + (if failed then [last.value] else []) + Others(order, look, strategy) + Listed(spare)
  }

  // ----- The search does so -----

  lemma {:induction false} IdsJoined(a: seq<Key>, b: seq<Key>)
    ensures Ids(a + b) == Ids(a) + Ids(b)
    ensures Distinct(a) && Distinct(b) && Ids(a) !! Ids(b) ==> Distinct(a + b)
  {
    var c := a + b;
    assert forall i | 0 <= i < |a| :: IdOf(c[i]) == IdOf(a[i]) && IdOf(a[i]) in Ids(a);
    assert forall i | 0 <= i < |b| :: IdOf(c[|a| + i]) == IdOf(b[i]) && IdOf(b[i]) in Ids(b);
  }

  // The keys divide into those taken off and those left.
  ghost predicate Divided(items: seq<Key>, order: seq<Key>, rest: seq<Key>) {
    Distinct(order) && Distinct(rest) && Ids(order) !! Ids(rest) && Ids(order) + Ids(rest) == Ids(items)
  }

  lemma {:induction false} NoneTaken(items: seq<Key>, rest: seq<Key>)
    requires Distinct(items) && TakenOff(items, [], rest)
    ensures Divided(items, [], rest)
  {
  }

  lemma {:induction false} DividedMore(items: seq<Key>, order: seq<Key>, left: seq<Key>, i: nat)
    requires Divided(items, order, left) && i < |left|
    ensures Divided(items, order + [left[i]], Without(left, i))
  {
    assert IdOf(left[i]) in Ids(left);
    IdsWithout(left, i);
    IdsOfAppended(order, left[i]);
    hide Distinct, Ids;
  }

  lemma {:induction false} LastTaken(items: seq<Key>, order: seq<Key>, rest: seq<Key>) returns (left: seq<Key>, i: nat)
    requires order != [] && TakenOff(items, order, rest)
    ensures TakenOff(items, order[..|order| - 1], left)
    ensures i < |left| && left[i] == order[|order| - 1] && rest == Without(left, i)
  {
    left, i :| TakenOff(items, order[..|order| - 1], left) && i < |left| && Picked(left, i)
               && left[i] == order[|order| - 1] && rest == Without(left, i);
  }

  lemma {:induction false} TakenOffIds(items: seq<Key>, order: seq<Key>, rest: seq<Key>)
    requires Distinct(items) && TakenOff(items, order, rest)
    ensures Divided(items, order, rest)
    decreases |order|
  {
    hide Divided, Distinct, Ids, TakenOff;
    if order == [] {
      NoneTaken(items, rest);
    } else {
      var left, i := LastTaken(items, order, rest);
      TakenOffIds(items, order[..|order| - 1], left);
      DividedMore(items, order[..|order| - 1], left, i);
      LastSplits(order);
    }
  }

  lemma {:induction false} LastSplits(order: seq<Key>)
    requires order != []
    ensures order[..|order| - 1] + [order[|order| - 1]] == order
  {
  }

  lemma {:induction false} OneMoreTaken(items: seq<Key>, order: seq<Key>, left: seq<Key>, i: nat, rest: seq<Key>)
    requires TakenOff(items, order, left) && i < |left| && Picked(left, i) && rest == Without(left, i)
    ensures TakenOff(items, order + [left[i]], rest)
  {
    var more := order + [left[i]];
    assert more[..|more| - 1] == order && more[|more| - 1] == left[i];
  }

  ghost predicate Sifted(order: seq<Key>, s: Sieve, look: Id -> Seen, strategy: Strategy) {
    && NoneFinal(order, look, strategy)
    && s == Sieve(Others(order, look, strategy), FirstUsable(order, look, strategy), CountWaiting(order, look, strategy))
  }

  // What one more key, behind those taken off, adds.
  lemma {:induction false} OneMore(order: seq<Key>, look: Id -> Seen, strategy: Strategy, key: Key)
    ensures var more := order + [key]; var seen := look(IdOf(key));
      var first := Usable(seen, strategy) && FirstUsable(order, look, strategy).None?;
      && FirstUsable(more, look, strategy) == (if first then Some(key) else FirstUsable(order, look, strategy))
      && Others(more, look, strategy) == Others(order, look, strategy)
           + (if Dropped(seen, strategy) || first then [] else [PutBackAs(key, seen, strategy)])
      && CountWaiting(more, look, strategy) == CountWaiting(order, look, strategy) + (if Waiting(seen, strategy) then 1 else 0)
  {
    var more := order + [key];
    assert more[..|more| - 1] == order && more[|more| - 1] == key;
  }

  // The verdict on a sandbox that does not end the search, and what was seen of it.
  lemma {:induction false} JudgedOther(key: Key, seen: Seen, strategy: Strategy)
    requires !Final(seen, strategy)
    ensures Judged(seen, strategy) in {Drop, Aside, Spare}
    ensures Judged(seen, strategy) == Drop <==> Dropped(seen, strategy)
    ensures Judged(seen, strategy) == Spare <==> Usable(seen, strategy)
    ensures Pending(seen, strategy) <==> Waiting(seen, strategy)
    ensures !Dropped(seen, strategy) ==> Refreshed(key, seen, strategy) == PutBackAs(key, seen, strategy)
    ensures Usable(seen, strategy) ==> PutBackAs(key, seen, strategy) == key
  {
  }

  lemma {:induction false} SiftedMore(order: seq<Key>, s: Sieve, look: Id -> Seen, strategy: Strategy, key: Key)
    requires Sifted(order, s, look, strategy) && !Final(look(IdOf(key)), strategy)
    ensures Sifted(order + [key], Sieved(s, key, look(IdOf(key)), strategy), look, strategy)
  {
    hide Others, FirstUsable, CountWaiting, Usable, Dropped, Waiting, Judged, Pending, Refreshed, PutBackAs, Final;
    OneMore(order, look, strategy, key);
    JudgedOther(key, look(IdOf(key)), strategy);
    assert s.skipped + [] == s.skipped;
  }

  // The sandboxes among these whose keys are not dropped.
  function Kept(order: seq<Key>, look: Id -> Seen, strategy: Strategy): set<Id> {
    set k | 0 <= k < |order| && !Dropped(look(IdOf(order[k])), strategy) :: IdOf(order[k])
  }

  // The keys put back are of sandboxes that were taken off.
  lemma {:induction false} OthersIds(order: seq<Key>, look: Id -> Seen, strategy: Strategy)
    requires Distinct(order)
    ensures var spare := FirstUsable(order, look, strategy);
      && Distinct(Others(order, look, strategy) + Listed(spare))
      && Ids(Others(order, look, strategy) + Listed(spare))
         == Kept(order, look, strategy)
    ensures Ids(Others(order, look, strategy) + Listed(FirstUsable(order, look, strategy))) <= Ids(order)
    decreases |order|
  {
    if order != [] {
      var before, key := order[..|order| - 1], order[|order| - 1];
      OthersIds(before, look, strategy);
      assert order == before + [key];
      assert IdOf(key) !in Ids(before);
      OneMoreBack(before, look, strategy, key);
    }
  }

  lemma {:induction false} OneMoreBack(before: seq<Key>, look: Id -> Seen, strategy: Strategy, key: Key)
    requires IdOf(key) !in Ids(before)
    requires var back := Others(before, look, strategy) + Listed(FirstUsable(before, look, strategy));
      && Distinct(back) && Ids(back) <= Ids(before)
      && Ids(back) == Kept(before, look, strategy)
    ensures var order := before + [key]; var back := Others(order, look, strategy) + Listed(FirstUsable(order, look, strategy));
      && Distinct(back) && Ids(back) <= Ids(order)
      && Ids(back) == Kept(order, look, strategy)
  {
    var order := before + [key];
    var o, spare := Others(before, look, strategy), Listed(FirstUsable(before, look, strategy));
    var p, more := Others(order, look, strategy), Listed(FirstUsable(order, look, strategy));
    var seen := look(IdOf(key));
    OneMore(before, look, strategy, key);
    assert Usable(seen, strategy) ==> !Dropped(seen, strategy);
    assert IdOf(PutBackAs(key, seen, strategy)) == IdOf(key);
    hide Others, FirstUsable, Dropped, Usable, PutBackAs, Kept, Distinct, Ids;
    IdsOfAppended(before, key);
    KeptMore(before, look, strategy, key);
    if Dropped(seen, strategy) {
      assert p + more == o + spare;
    } else if Usable(seen, strategy) && FirstUsable(before, look, strategy).None? {
      assert p + more == o + spare + [key];
      Inserted(o, spare, key);
    } else {
      Inserted(o, spare, PutBackAs(key, seen, strategy));
    }
  }

  // One more key, before or behind the spare one.
  lemma {:induction false} Inserted(o: seq<Key>, spare: seq<Key>, put: Key)
    requires Distinct(o + spare) && IdOf(put) !in Ids(o + spare)
    ensures Distinct(o + spare + [put]) && Ids(o + spare + [put]) == Ids(o + spare) + {IdOf(put)}
    ensures Distinct(o + [put] + spare) && Ids(o + [put] + spare) == Ids(o + spare) + {IdOf(put)}
  {
    IdsOfAppended(o + spare, put);
    SplitDistinct(o, spare);
    IdsJoined(o, spare);
    IdsOfAppended(o, put);
    IdsJoined(o + [put], spare);
    hide Distinct, Ids;
  }

  lemma {:induction false} SplitDistinct(a: seq<Key>, b: seq<Key>)
    requires Distinct(a + b)
    ensures Distinct(a) && Distinct(b) && Ids(a) !! Ids(b)
  {
    var c := a + b;
    assert forall i | 0 <= i < |a| :: c[i] == a[i];
    assert forall i | 0 <= i < |b| :: c[|a| + i] == b[i];
  }

  lemma {:induction false} KeptMore(before: seq<Key>, look: Id -> Seen, strategy: Strategy, key: Key)
    ensures var order := before + [key];
      Kept(order, look, strategy) == Kept(before, look, strategy)
         + if Dropped(look(IdOf(key)), strategy) then {} else {IdOf(key)}
  {
    var order := before + [key];
    assert forall k | 0 <= k < |before| :: order[k] == before[k];
    assert order[|before|] == key;
    forall k | 0 <= k < |before| && !Dropped(look(IdOf(before[k])), strategy)
      ensures IdOf(before[k]) in Kept(order, look, strategy)
    {
      assert IdOf(order[k]) == IdOf(before[k]);
    }
  }

  // Takes keys off until one ends the search, or none is left.
  method Examine(q: Queue, look: Id -> Seen, strategy: Strategy)
    returns (last: Option<Key>, s: Sieve, ghost order: seq<Key>)
    requires q.Valid()
    modifies q
    ensures q.Valid() && TakenOff(old(q.items), order + Listed(last), q.items) && Sifted(order, s, look, strategy)
    ensures if last.None? then q.items == [] else Final(look(IdOf(last.value)), strategy)
  {
    hide TakenOff, Others, CountWaiting, FirstUsable, Usable, Dropped, Waiting, Picked;
    s, order := Sieve([], None, 0), [];
    NothingTaken(q.items, look, strategy);
    last := TakeNext(q, old(q.items), order);
    JudgedFinal(last, look, strategy);
    while last.Some? && Judged(look(IdOf(last.value)), strategy) !in {Stop, Take}
      invariant q.Valid() && TakenOff(old(q.items), order + Listed(last), q.items) && Sifted(order, s, look, strategy)
      invariant last.None? ==> q.items == []
      invariant last.Some? ==> (Judged(look(IdOf(last.value)), strategy) in {Stop, Take} <==> Final(look(IdOf(last.value)), strategy))
      decreases |q.items|, last.Some?
    {
      SiftedMore(order, s, look, strategy, last.value);
      s, order := Sieved(s, last.value, look(IdOf(last.value)), strategy), order + [last.value];
      last := TakeNext(q, old(q.items), order);
      JudgedFinal(last, look, strategy);
    }
  }

  // The verdicts that end a search.
  lemma {:induction false} JudgedFinal(key: Option<Key>, look: Id -> Seen, strategy: Strategy)
    ensures key.Some? ==> var seen := look(IdOf(key.value));
      && (Judged(seen, strategy) in {Stop, Take} <==> Final(seen, strategy))
      && (Judged(seen, strategy) == Stop <==> seen.Unreadable?)
  {
  }

  lemma {:induction false} NothingTaken(items: seq<Key>, look: Id -> Seen, strategy: Strategy)
    ensures TakenOff(items, [], items) && Sifted([], Sieve([], None, 0), look, strategy)
  {
  }

  method TakeNext(q: Queue, ghost items: seq<Key>, ghost order: seq<Key>) returns (key: Option<Key>)
    requires q.Valid() && TakenOff(items, order, q.items)
    modifies q
    ensures q.Valid() && TakenOff(items, order + Listed(key), q.items)
    ensures if key.None? then q.items == old(q.items) == [] else |q.items| < |old(q.items)|
  {
    key := q.Pop();
    if key.None? {
      assert order + [] == order;
    } else {
      ghost var left := old(q.items);
      ghost var i :| 0 <= i < |left| && Picked(left, i) && left[i] == key.value && q.items == Without(left, i);
      OneMoreTaken(items, order, left, i, q.items);
    }
  }

  method PushAll(q: Queue, keys: seq<Key>)
    requires q.Valid() && Distinct(keys) && q.ids !! Ids(keys)
    modifies q
    ensures q.Valid() && q.items == old(q.items) + keys && q.ids == old(q.ids) + Ids(keys)
  {
    for i := 0 to |keys|
      invariant q.Valid() && q.items == old(q.items) + keys[..i] && q.ids == old(q.ids) + Ids(keys[..i])
    {
      assert keys[..i + 1] == keys[..i] + [keys[i]];
      IdsOfAppended(keys[..i], keys[i]);
      assert IdOf(keys[i]) in Ids(keys);
      assert IdOf(keys[i]) !in Ids(keys[..i]);
      q.Push(keys[i]);
    }
    assert keys[..|keys|] == keys;
  }

  /** Searches the queue for a candidate. order: the keys taken off that did
      not end the search; last: the one that did; rest: what was left then. */
  method GetCandidate(q: Queue, look: Id -> Seen, strategy: Strategy)
    returns (found: Option<Key>, pending: nat, failed: bool,
             ghost order: seq<Key>, ghost last: Option<Key>, ghost rest: seq<Key>)
    requires q.Valid()
    modifies q
    ensures q.Valid()
    ensures Promised(old(q.items), q.items, found, failed, pending, order, last, rest, look, strategy)
  {
    hide TakenOff, Others, CountWaiting, FirstUsable, Usable, Dropped, Waiting, Picked, Judged, Final;
    var key, s;
    key, s, order := Examine(q, look, strategy);
    last, rest, pending := key, q.items, s.pending;
    DivisionOf(old(q.items), order, key, rest, look, strategy);
    JudgedFinal(key, look, strategy);
    if key.None? {
      PushAll(q, s.skipped);
      assert [] + s.skipped == s.skipped;
      return s.fallback, pending, false, order, last, rest;
    }
    failed := Judged(look(IdOf(key.value)), strategy) == Stop;
    if failed {
      q.Push(key.value);
    }
    PushAll(q, s.skipped + Listed(s.fallback));
    found := if failed then None else key;
    assert q.items == rest + (if failed then [key.value] else []) + s.skipped + Listed(s.fallback);
  }

  // The keys taken off, those among them that go back, and those left.
  lemma {:induction false} DivisionOf(items: seq<Key>, order: seq<Key>, last: Option<Key>, rest: seq<Key>,
                                      look: Id -> Seen, strategy: Strategy)
    requires Distinct(items) && TakenOff(items, order + Listed(last), rest)
    ensures var others, spare := Others(order, look, strategy), Listed(FirstUsable(order, look, strategy));
      && Distinct(rest) && Distinct(others) && Distinct(others + spare)
      && Ids(others) <= Ids(others + spare) <= Ids(order) && Ids(order) !! Ids(rest)
      && Ids(items) == Ids(order) + Ids(rest) + (if last.Some? then {IdOf(last.value)} else {})
      && (last.Some? ==> IdOf(last.value) !in Ids(order) && IdOf(last.value) !in Ids(rest))
      && Ids(others + spare) == Kept(order, look, strategy)
      && Ids(others + spare) == Ids(others) + Ids(spare) && Ids(others) !! Ids(spare)
  {
    hide TakenOff, Others, FirstUsable, Dropped;
    TakenOffIds(items, order + Listed(last), rest);
    SplitDistinct(order, Listed(last));
    IdsJoined(order, Listed(last));
    OthersIds(order, look, strategy);
    SplitDistinct(Others(order, look, strategy), Listed(FirstUsable(order, look, strategy)));
    IdsJoined(Others(order, look, strategy), Listed(FirstUsable(order, look, strategy)));
    if last.Some? {
      assert [last.value][0] == last.value;
      assert Ids([last.value]) == {IdOf(last.value)};
    }
  }

  // A usable sandbox among the keys is known from the key itself.
  lemma {:induction false} UsableOf(order: seq<Key>, look: Id -> Seen, strategy: Strategy, id: Id)
    requires id in Ids(order)
    ensures FirstUsable(order, look, strategy).None? ==> !Usable(look(id), strategy)
    ensures NoneFinal(order, look, strategy) ==> !Final(look(id), strategy)
  {
    var k :| 0 <= k < |order| && IdOf(order[k]) == id;
  }

  lemma {:induction false} SpareOf(order: seq<Key>, look: Id -> Seen, strategy: Strategy)
    ensures var spare := FirstUsable(order, look, strategy);
      spare.Some? ==> IdOf(spare.value) in Ids(order) && Usable(look(IdOf(spare.value)), strategy)
  {
  }

  /** Nothing is lost: a key that is missing from the queue afterwards is the
      one returned, or its sandbox was examined and found gone, not adoptable,
      or stale where the pool recreates. What is returned is usable; if it is
      not ready, no usable one is; and if none is returned without failure,
      there is no usable one. The search fails exactly when a sandbox it
      examined could not be read. */
  lemma {:induction false} SearchLosesNothing(items: seq<Key>, after: seq<Key>, found: Option<Key>, failed: bool,
                                              pending: nat, order: seq<Key>, last: Option<Key>, rest: seq<Key>,
                                              look: Id -> Seen, strategy: Strategy)
    requires Distinct(items) && Promised(items, after, found, failed, pending, order, last, rest, look, strategy)
    ensures Ids(after) <= Ids(items) && (found.Some? ==> IdOf(found.value) in Ids(items) - Ids(after))
    ensures forall id | id in Ids(items) - Ids(after) && (found.Some? ==> id != IdOf(found.value)) ::
      id in Ids(order) && Dropped(look(id), strategy)
    ensures found.Some? ==> Usable(look(IdOf(found.value)), strategy)
    ensures found.Some? && !look(IdOf(found.value)).ready ==>
      forall id | id in Ids(items) :: Usable(look(id), strategy) ==> !look(id).ready
    ensures found.None? && !failed ==> forall id | id in Ids(items) :: !Usable(look(id), strategy)
    ensures failed <==> exists id :: id in Ids(order) + (if last.Some? then {IdOf(last.value)} else {}) && look(id).Unreadable?
  {
    var others, spare := Others(order, look, strategy), Listed(FirstUsable(order, look, strategy));
    hide TakenOff, Others, CountWaiting, FirstUsable, Picked;
    DivisionOf(items, order, last, rest, look, strategy);
    SpareOf(order, look, strategy);
    var stuck := if failed then [last.value] else [];
    IdsJoined(rest, stuck);
    IdsJoined(rest + stuck, others);
    IdsJoined(rest + stuck + others, spare);
    assert failed ==> IdOf(stuck[0]) in Ids(stuck);
    forall id | id in Ids(order)
      ensures FirstUsable(order, look, strategy).None? ==> !Usable(look(id), strategy)
      ensures !Final(look(id), strategy)
      ensures id in Ids(others + spare) || Dropped(look(id), strategy)
    {
      UsableOf(order, look, strategy, id);
      var k :| 0 <= k < |order| && IdOf(order[k]) == id;
    }
    if failed {
      assert look(IdOf(last.value)).Unreadable?;
    }
    assert Ids([]) == {};
    assert spare != [] ==> IdOf(spare[0]) in Ids(spare);
  }
}
