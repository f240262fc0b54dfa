/** The order in which warm candidates are taken from their queue: always from
    a node with the most left, oldest first. Taking any number of them this
    way leaves the fullest node as empty as it can be. */
module NodeSpread {

  // node is empty while the candidate has not been scheduled.
  datatype Key = Key(namespace: string, name: string, node: string)

  predicate Scheduled(k: Key) { k.node != "" }

  function Count(keys: seq<Key>, node: string): (n: nat)
    ensures n <= |keys|
  {
    if keys == [] then 0
    else Count(keys[..|keys| - 1], node) + if keys[|keys| - 1].node == node then 1 else 0
  }

  // A scheduled key on a node with the most keys.
  ghost predicate Best(keys: seq<Key>, i: int) {
    && 0 <= i < |keys| && Scheduled(keys[i])
    && forall j | 0 <= j < |keys| && Scheduled(keys[j]) :: Count(keys, keys[j].node) <= Count(keys, keys[i].node)
  }

  // The oldest of the best; the oldest of all when none is scheduled.
  ghost predicate Picked(keys: seq<Key>, i: int) {
    if exists j :: 0 <= j < |keys| && Scheduled(keys[j])
    then Best(keys, i) && forall j | 0 <= j < i :: !Best(keys, j)
    else i == 0
  }

  lemma {:induction false} CountPositive(keys: seq<Key>, i: nat)
    requires i < |keys|
    ensures Count(keys, keys[i].node) > 0
    decreases |keys|
  {
    if i < |keys| - 1 {
      CountPositive(keys[..|keys| - 1], i);
    }
  }

  // The positions of the scheduled keys, in order.
  ghost predicate Grouping(keys: seq<Key>, scheduled: seq<nat>) {
    && (forall j | 0 <= j < |scheduled| :: scheduled[j] < |keys| && Scheduled(keys[scheduled[j]]))
    && (forall a, b | 0 <= a < b < |scheduled| :: scheduled[a] < scheduled[b])
    && (forall j | 0 <= j < |keys| && Scheduled(keys[j]) :: j in scheduled)
  }

  ghost predicate Counted(keys: seq<Key>, counts: map<string, nat>) {
    && (forall n | n in counts :: counts[n] == Count(keys, n) > 0 && n != "")
    && (forall n | n !in counts && n != "" :: Count(keys, n) == 0)
  }

  method Group(keys: seq<Key>) returns (scheduled: seq<nat>)
    ensures Grouping(keys, scheduled)
  {
    scheduled := [];
    for k := 0 to |keys|
      invariant forall j | 0 <= j < |scheduled| :: scheduled[j] < k && Scheduled(keys[scheduled[j]])
      invariant forall a, b | 0 <= a < b < |scheduled| :: scheduled[a] < scheduled[b]
      invariant forall j | 0 <= j < k && Scheduled(keys[j]) :: j in scheduled
    {
      if keys[k].node != "" {
        scheduled := scheduled + [k];
      }
    }
  }

  method CountNodes(keys: seq<Key>) returns (counts: map<string, nat>)
    ensures Counted(keys, counts)
  {
    counts := map[];
    for k := 0 to |keys|
      invariant Counted(keys[..k], counts)
    {
      var node := keys[k].node;
      assert keys[..k + 1][..k] == keys[..k] && keys[..k + 1][k] == keys[k];
      if node != "" {
        counts := counts[node := 1 + if node in counts then counts[node] else 0];
      }
    }
    assert keys[..|keys|] == keys;
  }

  method MostOf(counts: map<string, nat>) returns (most: nat)
    ensures forall n | n in counts :: counts[n] <= most
    ensures counts != map[] ==> exists n :: n in counts && counts[n] == most
  {
    most := 0;
    var rest := counts.Keys;
    while rest != {}
      invariant rest <= counts.Keys
      invariant forall n | n in counts && n !in rest :: counts[n] <= most
      invariant most == 0 || exists n :: n in counts && counts[n] == most
      invariant rest == counts.Keys || exists n :: n in counts && counts[n] <= most
      decreases rest
    {
      var n :| n in rest;
      rest := rest - {n};
      if counts[n] > most {
        most := counts[n];
      }
    }
  }

  // The first scheduled key whose node has this count.
  method FirstWith(keys: seq<Key>, scheduled: seq<nat>, counts: map<string, nat>, most: nat) returns (i: nat)
    requires Grouping(keys, scheduled) && Counted(keys, counts)
    requires forall n | n in counts :: counts[n] <= most
    requires exists n :: n in counts && counts[n] == most
    ensures i < |keys| && Best(keys, i) && forall j | 0 <= j < i :: !Best(keys, j)
  {
    ghost var n :| n in counts && counts[n] == most;
    ghost var at := CountWitness(keys, n);
    assert at in scheduled;
    forall j | 0 <= j < |scheduled|
      ensures keys[scheduled[j]].node in counts
    {
      CountPositive(keys, scheduled[j]);
    }
    var s := 0;
    while counts[keys[scheduled[s]].node] != most
      invariant s < |scheduled|
      invariant forall j | 0 <= j < s :: Count(keys, keys[scheduled[j]].node) < most
      invariant exists j :: s <= j < |scheduled| && scheduled[j] == at
      decreases |scheduled| - s
    {
      s := s + 1;
    }
    i := scheduled[s];
    FirstIsBest(keys, scheduled, s, most, at);
  }

  lemma {:induction false} NotBest(keys: seq<Key>, i: nat, at: nat)
    requires i < |keys| && at < |keys| && Scheduled(keys[at])
    requires Count(keys, keys[i].node) < Count(keys, keys[at].node)
    ensures !Best(keys, i)
  {
  }

  // A scheduled key before the s-th is one of the first s.
  lemma {:induction false} EarlierIsListed(keys: seq<Key>, scheduled: seq<nat>, s: nat, i: nat) returns (k: nat)
    requires Grouping(keys, scheduled) && s < |scheduled| && i < scheduled[s] && Scheduled(keys[i])
    ensures k < s && scheduled[k] == i
  {
    assert i in scheduled;
    k :| 0 <= k < |scheduled| && scheduled[k] == i;
  }

  lemma {:induction false} FirstIsBest(keys: seq<Key>, scheduled: seq<nat>, s: nat, most: nat, at: nat)
    requires Grouping(keys, scheduled) && s < |scheduled| && at < |keys| && Scheduled(keys[at])
    requires forall j | 0 <= j < |keys| && Scheduled(keys[j]) :: Count(keys, keys[j].node) <= most
    requires Count(keys, keys[at].node) == most == Count(keys, keys[scheduled[s]].node)
    requires forall j | 0 <= j < s :: Count(keys, keys[scheduled[j]].node) < most
    ensures Best(keys, scheduled[s]) && forall j | 0 <= j < scheduled[s] :: !Best(keys, j)
  {
    forall j | 0 <= j < scheduled[s]
      ensures !Best(keys, j)
    {
      if Scheduled(keys[j]) {
        var k := EarlierIsListed(keys, scheduled, s, j);
        NotBest(keys, j, at);
      }
    }
  }

  method PickSmart(keys: seq<Key>) returns (found: bool, i: nat)
    ensures found <==> keys != []
    ensures found ==> i < |keys| && Picked(keys, i)
  {
    if keys == [] {
      return false, 0;
    }
    if |keys| == 1 {
      return true, 0;
    }
    var scheduled := Group(keys);
    if scheduled == [] {
      return true, 0;
    }
    var counts := CountNodes(keys);
    CountPositive(keys, scheduled[0]);
    assert keys[scheduled[0]].node in counts;
    var most := MostOf(counts);
    i := FirstWith(keys, scheduled, counts, most);
    found := true;
  }

  lemma {:induction false} CountWitness(keys: seq<Key>, node: string) returns (i: nat)
    requires Count(keys, node) > 0
    ensures i < |keys| && keys[i].node == node
    decreases |keys|
  {
    var last := |keys| - 1;
    if keys[last].node == node {
      return last;
    }
    i := CountWitness(keys[..last], node);
  }

  // ----- Spreading is optimal -----

  function Without(keys: seq<Key>, i: nat): seq<Key>
    requires i < |keys|
  {
    keys[..i] + keys[i + 1..]
  }

  // How many keys stand above m on their node: the sum of what each node has beyond m.
  function Excess(keys: seq<Key>, m: nat): nat {
    if keys == [] then 0
    else
      var rest, k := keys[..|keys| - 1], keys[|keys| - 1];
      Excess(rest, m) + if Scheduled(k) && Count(rest, k.node) >= m then 1 else 0
  }

  lemma {:induction false} WithoutLast(keys: seq<Key>, i: nat)
    requires i < |keys| - 1
    ensures var last := |keys| - 1;
      Without(keys, i)[..last - 1] == Without(keys[..last], i) && Without(keys, i)[last - 1] == keys[last]
  {
  }

  lemma {:induction false} CountWithout(keys: seq<Key>, i: nat, node: string)
    requires i < |keys|
    ensures Count(Without(keys, i), node) == Count(keys, node) - if keys[i].node == node then 1 else 0
    decreases |keys|
  {
    var last := |keys| - 1;
    if i == last {
      assert Without(keys, i) == keys[..last];
    } else {
      WithoutLast(keys, i);
      CountWithout(keys[..last], i, node);
    }
  }

  // Taking a key lowers the excess over m by one exactly when its node has more than m.
  lemma {:induction false} ExcessWithout(keys: seq<Key>, i: nat, m: nat)
    requires i < |keys| && Scheduled(keys[i])
    ensures Excess(Without(keys, i), m) == Excess(keys, m) - if Count(keys, keys[i].node) > m then 1 else 0
    decreases |keys|
  {
    var last := |keys| - 1;
    if i == last {
      assert Without(keys, i) == keys[..last];
    } else {
      WithoutLast(keys, i);
      ExcessWithout(keys[..last], i, m);
      CountWithout(keys[..last], i, keys[last].node);
    }
  }

  // No node has more than m keys.
  ghost predicate AtMost(keys: seq<Key>, m: nat) {
    forall node | node != "" :: Count(keys, node) <= m
  }

  lemma {:induction false} NoExcess(keys: seq<Key>, m: nat)
    ensures Excess(keys, m) == 0 <==> AtMost(keys, m)
    decreases |keys|
  {
    if keys != [] {
      var rest, k := keys[..|keys| - 1], keys[|keys| - 1];
      NoExcess(rest, m);
      assert forall node :: Count(keys, node) == Count(rest, node) + if k.node == node then 1 else 0;
      if AtMost(keys, m) {
        assert forall node | node != "" :: Count(rest, node) <= Count(keys, node) <= m;
      }
      if Excess(keys, m) == 0 {
        forall node | node != ""
          ensures Count(keys, node) <= m
        {
          assert Count(rest, node) <= m;
        }
      }
    }
  }

  // Taking keys at these positions, one after the other, each of them scheduled.
  predicate CanTake(keys: seq<Key>, at: seq<nat>)
    decreases |at|
  {
    at == [] || (at[0] < |keys| && Scheduled(keys[at[0]]) && CanTake(Without(keys, at[0]), at[1..]))
  }

  function TakeAll(keys: seq<Key>, at: seq<nat>): seq<Key>
    requires CanTake(keys, at)
    decreases |at|
  {
    if at == [] then keys else TakeAll(Without(keys, at[0]), at[1..])
  }

  // Each of them is the one that would be picked.
  ghost predicate AllPicked(keys: seq<Key>, at: seq<nat>)
    requires CanTake(keys, at)
    decreases |at|
  {
    at == [] || (Picked(keys, at[0]) && AllPicked(Without(keys, at[0]), at[1..]))
  }

  lemma {:induction false} TakingLowers(keys: seq<Key>, at: seq<nat>, m: nat)
    requires CanTake(keys, at)
    ensures Excess(TakeAll(keys, at), m) >= Excess(keys, m) - |at|
    decreases |at|
  {
    if at != [] {
      ExcessWithout(keys, at[0], m);
      TakingLowers(Without(keys, at[0]), at[1..], m);
    }
  }

  lemma {:induction false} TakingKeepsCount(keys: seq<Key>, at: seq<nat>, node: string)
    requires CanTake(keys, at)
    ensures Count(TakeAll(keys, at), node) <= Count(keys, node)
    decreases |at|
  {
    if at != [] {
      CountWithout(keys, at[0], node);
      TakingKeepsCount(Without(keys, at[0]), at[1..], node);
    }
  }

  // While a node has more than m left at the end, every pick lowers the excess over m.
  lemma {:induction false} PickingLowers(keys: seq<Key>, at: seq<nat>, m: nat, node: string)
    requires CanTake(keys, at) && AllPicked(keys, at)
    requires node != "" && Count(TakeAll(keys, at), node) > m
    ensures Excess(TakeAll(keys, at), m) == Excess(keys, m) - |at|
    decreases |at|
  {
    if at != [] {
      TakingKeepsCount(keys, at, node);
      var j := CountWitness(keys, node);
      assert Scheduled(keys[j]) && Best(keys, at[0]);
      ExcessWithout(keys, at[0], m);
      PickingLowers(Without(keys, at[0]), at[1..], m, node);
    }
  }

  /** Of all ways to take this many scheduled keys, picking leaves the
      smallest possible greatest count of keys on one node. */
  lemma {:induction false} SpreadIsOptimal(keys: seq<Key>, picks: seq<nat>, others: seq<nat>, m: nat)
    requires CanTake(keys, picks) && AllPicked(keys, picks)
    requires CanTake(keys, others) && |others| == |picks|
    requires AtMost(TakeAll(keys, others), m)
    ensures AtMost(TakeAll(keys, picks), m)
  {
    NoExcess(TakeAll(keys, others), m);
    TakingLowers(keys, others, m);
    forall node | node != ""
      ensures Count(TakeAll(keys, picks), node) <= m
    {
      if Count(TakeAll(keys, picks), node) > m {
        PickingLowers(keys, picks, m, node);
        NoExcess(TakeAll(keys, picks), m);
      }
    }
  }
}
