/** Sets of keys written down as one string: sorted, joined by commas, and
    split again. */
module KeyList {

  predicate CommaFree(s: string) { ',' !in s }

  function Join(keys: seq<string>): string {
    if keys == [] then ""
    else if |keys| == 1 then keys[0]
    else keys[0] + "," + Join(keys[1..])
  }

  function CommaAt(s: string): (i: nat)
    ensures i <= |s| && ',' !in s[..i] && (i < |s| ==> s[i] == ',')
  {
    if s == "" || s[0] == ',' then 0 else 1 + CommaAt(s[1..])
  }

  function Split(s: string): (parts: seq<string>)
    ensures parts != []
    decreases |s|
  {
    var i := CommaAt(s);
    if i == |s| then [s] else [s[..i]] + Split(s[i + 1..])
  }

  lemma {:induction false} CommaAtIs(a: string, rest: string)
    requires CommaFree(a)
    ensures CommaAt(a + "," + rest) == |a|
    ensures CommaAt(a) == |a|
  {
    if a != "" {
      assert (a + "," + rest)[1..] == a[1..] + "," + rest;
      CommaAtIs(a[1..], rest);
    }
  }

  // Splitting inverts joining.
  lemma {:induction false} SplitJoin(keys: seq<string>)
    requires keys != [] && forall k | k in keys :: CommaFree(k)
    ensures Split(Join(keys)) == keys
    decreases |keys|
  {
    if |keys| == 1 {
      CommaAtIs(keys[0], "");
    } else {
      var a, rest := keys[0], Join(keys[1..]);
      CommaAtIs(a, rest);
      assert (a + "," + rest)[..|a|] == a && (a + "," + rest)[|a| + 1..] == rest;
      SplitJoin(keys[1..]);
    }
  }

  // ----- Sorting -----

  predicate AtMost(a: string, b: string) {
    a == "" || (b != "" && (a[0] < b[0] || (a[0] == b[0] && AtMost(a[1..], b[1..]))))
  }

  lemma {:induction false} Antisymmetric(a: string, b: string)
    requires AtMost(a, b) && AtMost(b, a)
    ensures a == b
  {
    if a != "" {
      Antisymmetric(a[1..], b[1..]);
      assert a == [a[0]] + a[1..] && b == [b[0]] + b[1..];
    }
  }

  lemma {:induction false} Total(a: string, b: string)
    ensures AtMost(a, b) || AtMost(b, a)
  {
    if a != "" && b != "" && a[0] == b[0] {
      Total(a[1..], b[1..]);
    }
  }

  lemma {:induction false} Transitive(a: string, b: string, c: string)
    requires AtMost(a, b) && AtMost(b, c)
    ensures AtMost(a, c)
  {
    if a != "" && a[0] == b[0] == c[0] {
      Transitive(a[1..], b[1..], c[1..]);
    }
  }

  predicate Least(x: string, s: set<string>) {
    x in s && forall y | y in s :: AtMost(x, y)
  }

  lemma {:induction false} LeastExists(s: set<string>)
    requires s != {}
    ensures exists x :: Least(x, s)
    decreases |s|
  {
    var a :| a in s;
    Total(a, a);
    var rest := s - {a};
    if rest == {} {
      assert s == {a};
      assert Least(a, s);
    } else {
      LeastExists(rest);
      var x :| Least(x, rest);
      Total(a, x);
      if AtMost(a, x) {
        forall y | y in s
          ensures AtMost(a, y)
        {
          if y != a {
            Transitive(a, x, y);
          }
        }
        assert Least(a, s);
      } else {
        assert Least(x, s);
      }
    }
  }

  lemma {:induction false} LeastIsOne(s: set<string>)
    ensures forall x, y | Least(x, s) && Least(y, s) :: x == y
  {
    forall x, y | Least(x, s) && Least(y, s)
      ensures x == y
    {
      Antisymmetric(x, y);
    }
  }

  function Sorted(s: set<string>): (r: seq<string>)
    ensures forall k :: k in r <==> k in s
    ensures |r| == |s|
    decreases |s|
  {
    if s == {} then []
    else
      LeastExists(s);
      LeastIsOne(s);
      var x :| x in s && Least(x, s);
      [x] + Sorted(s - {x})
  }

  predicate Ascending(r: seq<string>) {
    forall i, j | 0 <= i < j < |r| :: AtMost(r[i], r[j])
  }

  lemma {:induction false} LeastFirst(x: string, s: set<string>, rest: seq<string>)
    requires Least(x, s) && forall y | y in rest :: y in s
    requires Ascending(rest)
    ensures Ascending([x] + rest)
  {
    hide AtMost;
    var r := [x] + rest;
    forall i, j | 0 <= i < j < |r|
      ensures AtMost(r[i], r[j])
    {
      assert r[j] == rest[j - 1];
      if i > 0 {
        assert r[i] == rest[i - 1];
      }
    }
  }

  // Sorting leaves each element at most the next.
  lemma {:induction false} SortedIsSorted(s: set<string>)
    ensures Ascending(Sorted(s))
    decreases |s|
  {
    if s != {} {
      LeastExists(s);
      LeastIsOne(s);
      var x :| x in s && Least(x, s);
      var rest := Sorted(s - {x});
      SortedIsSorted(s - {x});
      assert forall y | y in rest :: y in s - {x};
      LeastFirst(x, s, rest);
    }
  }

  // The list of a set, and the set a list names; a list of none is empty.
  function Listed(keys: set<string>): string {
    Join(Sorted(keys))
  }

  function Names(list: string): set<string> {
    if list == "" then {} else set k | k in Split(list) && k != ""
  }

  lemma {:induction false} NamesOfList(keys: set<string>)
    requires forall k | k in keys :: CommaFree(k)
    ensures Names(Listed(keys)) == keys - {""}
  {
    var r := Sorted(keys);
    if r != [] && Join(r) != "" {
      SplitJoin(r);
    } else if r != [] {
      assert Join(r) == "";
      SplitJoin(r);
      assert r == [""];
      assert forall k | k in keys :: k in r;
    } else {
      assert forall k | k in keys :: k in r;
    }
  }

  // k stands in the list between commas or ends.
  predicate StandsAt(list: string, k: string, i: int) {
    && 0 <= i && i + |k| <= |list| && list[i..i + |k|] == k
    && (i == 0 || list[i - 1] == ',') && (i + |k| == |list| || list[i + |k|] == ',')
  }

  ghost predicate StandsIn(list: string, k: string) {
    exists i :: StandsAt(list, k, i)
  }

  lemma {:induction false} SplitExact(list: string, k: string)
    ensures k in Split(list) <==> CommaFree(k) && StandsIn(list, k)
    decreases |list|
  {
    var i := CommaAt(list);
    if i == |list| {
      WholeStands(list, k);
    } else {
      var head, tail := list[..i], list[i + 1..];
      SplitExact(tail, k);
      assert list == head + [','] + tail;
      StandsFirst(list, k, i);
      StandsLater(list, k, i);
      assert Split(list) == [head] + Split(tail);
      assert k in Split(list) <==> k == head || k in Split(tail);
    }
  }

  lemma {:induction false} WholeStands(list: string, k: string)
    requires CommaFree(list)
    ensures StandsIn(list, k) <==> k == list
  {
    if k == list {
      assert StandsAt(list, k, 0);
    }
    if StandsIn(list, k) {
      var i :| StandsAt(list, k, i);
      assert i == 0 && |k| == |list|;
      assert list[..|list|] == list;
    }
  }

  lemma {:induction false} StandsFirst(list: string, k: string, i: nat)
    requires i < |list| && list[i] == ',' && CommaFree(list[..i])
    ensures k == list[..i] ==> CommaFree(k) && StandsIn(list, k)
  {
    if k == list[..i] {
      assert StandsAt(list, k, 0);
    }
  }

  lemma {:induction false} StandsInTail(list: string, k: string, i: nat, j: int)
    requires i < |list|
    ensures StandsAt(list[i + 1..], k, j) && (j == 0 ==> list[i] == ',') ==> StandsAt(list, k, i + 1 + j)
    ensures i < j && StandsAt(list, k, j) ==> StandsAt(list[i + 1..], k, j - i - 1)
  {
    var tail := list[i + 1..];
    if 0 <= j && j + |k| <= |tail| {
      assert tail[j..j + |k|] == list[i + 1 + j..i + 1 + j + |k|];
    }
    if i < j && j + |k| <= |list| {
      assert tail[j - i - 1..j - i - 1 + |k|] == list[j..j + |k|];
    }
  }

  // A name that starts before the first comma ends there.
  lemma {:induction false} StandsUpTo(list: string, k: string, i: nat, j: int)
    requires i < |list| && list[i] == ',' && CommaFree(list[..i])
    requires j <= i && StandsAt(list, k, j) && CommaFree(k)
    ensures k == list[..i]
  {
    var head := list[..i];
    assert forall p | 0 <= p < |head| :: head[p] == list[p];
    assert forall p | 0 <= p < |k| :: k[p] == list[j + p];
  }

  // Past the first comma, the list and its tail hold the same names.
  lemma {:induction false} StandsLater(list: string, k: string, i: nat)
    requires i < |list| && list[i] == ',' && CommaFree(list[..i])
    ensures StandsIn(list[i + 1..], k) ==> StandsIn(list, k)
    ensures CommaFree(k) && StandsIn(list, k) ==> k == list[..i] || StandsIn(list[i + 1..], k)
  {
    hide StandsAt;
    if StandsIn(list[i + 1..], k) {
      var j :| StandsAt(list[i + 1..], k, j);
      StandsInTail(list, k, i, j);
    }
    if CommaFree(k) && StandsIn(list, k) {
      var j :| StandsAt(list, k, j);
      StandsInTail(list, k, i, j);
      if j <= i {
        StandsUpTo(list, k, i, j);
      }
    }
  }

  /** The names in a list, exactly: what stands between its commas and ends
      without a comma inside, but for the empty name. */
  lemma {:induction false} NamesExact(list: string, k: string)
    ensures k in Names(list) <==> k != "" && CommaFree(k) && StandsIn(list, k)
  {
    SplitExact(list, k);
  }
}
