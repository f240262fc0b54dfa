/** Creating in batches that double while everything succeeds. */
module SlowStart {
  import opened Arithmetic

  // How many of the first n calls succeed.
  function Successes(ok: nat -> bool, n: nat): (s: nat)
    ensures s <= n
  {
    if n == 0 then 0 else Successes(ok, n - 1) + if ok(n - 1) then 1 else 0
  }

  predicate AllSucceed(ok: nat -> bool, n: nat) {
    forall i | 0 <= i < n :: ok(i)
  }

  lemma {:induction false} AllAreSuccesses(ok: nat -> bool, n: nat)
    ensures Successes(ok, n) == n <==> AllSucceed(ok, n)
  {
    if n > 0 {
      AllAreSuccesses(ok, n - 1);
      assert AllSucceed(ok, n) <==> AllSucceed(ok, n - 1) && ok(n - 1);
    }
  }

  // The size of the n-th batch, and of all before it.
  function Size(initial: int, n: nat): int {
    if n == 0 then initial else 2 * Size(initial, n - 1)
  }

  function Total(initial: int, n: nat): int {
    if n == 0 then 0 else Total(initial, n - 1) + Size(initial, n - 1)
  }

  lemma {:induction false} TotalIs(initial: int, n: nat)
    ensures Size(initial, n) == initial * Power(n) && Total(initial, n) == Size(initial, n) - initial
    ensures initial > 0 ==> Size(initial, n) > 0
  {
    if n > 0 {
      TotalIs(initial, n - 1);
      assert initial * (2 * Power(n - 1)) == 2 * (initial * Power(n - 1));
    }
  }

  // One batch more.
  lemma {:induction false} TotalNext(initial: int, n: nat)
    ensures Total(initial, 0) == 0 && Size(initial, 0) == initial
    ensures Total(initial, n + 1) == Total(initial, n) + Size(initial, n) && Size(initial, n + 1) == 2 * Size(initial, n)
    ensures Total(initial, n) == Size(initial, n) - initial && (initial > 0 ==> Size(initial, n) > 0)
  {
    TotalIs(initial, n);
  }

  // Calls on the next indexes of one batch, whatever fails in it.
  method Batch(start: nat, size: nat, ok: nat -> bool) returns (done: nat, calls: seq<nat>)
    ensures |calls| == size && forall j | 0 <= j < size :: calls[j] == start + j
    ensures Successes(ok, start) + done == Successes(ok, start + size) && done <= size
  {
    done, calls := 0, [];
    for i := 0 to size
      invariant |calls| == i && forall j | 0 <= j < i :: calls[j] == start + j
      invariant done <= i && Successes(ok, start) + done == Successes(ok, start + i)
    {
      calls := calls + [start + i];
      if ok(start + i) {
        done := done + 1;
      }
    }
  }

  /** Calls a function on the indexes from 0, in batches that start small and
      double. ok says which calls succeed, and cancelled before which batch
      the context is found ended. calls: the indexes called on, in order;
      before: how many of them came before the last batch; round: the batch it
      came to, each earlier one not cancelled.

      Each index of a prefix is called on once. All calls before the last
      batch succeeded; after n batches, each twice the last, they are the total
      of these, or all. So a run that meets failures makes at most
      2 * before + initial calls.
      It stops early only on a failure or a cancellation. */
  method Batches(count: int, initial: int, ok: nat -> bool, cancelled: nat -> bool)
    returns (successes: nat, failed: bool, calls: seq<nat>, ghost before: nat, ghost round: nat)
    ensures |calls| <= (if count > 0 then count else 0)
    ensures forall i | 0 <= i < |calls| :: calls[i] == i
    ensures successes == Successes(ok, |calls|)
    ensures before <= |calls| && AllSucceed(ok, before)
    ensures initial > 0 && count > 0 ==> before == Min(count, Total(initial, round))
    ensures |calls| == before || |calls| == Min(count, Total(initial, round + 1))
    ensures initial > 0 ==> |calls| <= 2 * before + initial
    ensures !failed && count >= 0 && initial > 0 ==> |calls| == successes == count
    ensures initial > 0 ==> (failed <==> !AllSucceed(ok, |calls|) || (|calls| < count && cancelled(round)))
    ensures initial <= 0 ==> !failed && calls == []
    ensures forall k: nat | k < round :: !cancelled(k)
  {
    hide Total, Size;
    TotalNext(initial, 0);
    var remaining := count;
    successes, failed, calls, before, round := 0, false, [], 0, 0;
    var batch := if remaining < initial then remaining else initial;
    var n := 0;
    while batch > 0
      invariant |calls| == successes == before && (count >= 0 ==> 0 <= remaining == count - successes)
      invariant count < 0 ==> successes == 0 && remaining == count
      invariant batch <= remaining && (initial > 0 && remaining > 0 ==> batch > 0)
      invariant batch > 0 ==> batch <= successes + initial
      invariant initial > 0 && count > 0 ==> successes == Min(count, Total(initial, n))
      invariant batch > 0 ==> batch == Min(remaining, Size(initial, n))
      invariant forall i | 0 <= i < |calls| :: calls[i] == i
      invariant AllSucceed(ok, successes) && successes == Successes(ok, successes)
      invariant batch <= 0 && initial > 0 ==> remaining <= 0
      invariant initial <= 0 ==> batch <= 0 && calls == []
      invariant round == n && forall k: nat | k < n :: !cancelled(k)
      decreases remaining
    {
      TotalNext(initial, n);
      if cancelled(n) {
        return successes, true, calls, before, n;
      }
      var done, indexes := Batch(successes, batch, ok);
      calls := calls + indexes;
      AllAreSuccesses(ok, |calls|);
      if done < batch {
        return successes + done, true, calls, before, n;
      }
      successes := successes + done;
      before := successes;
      remaining := remaining - batch;
      batch := if 2 * batch < remaining then 2 * batch else remaining;
      n := n + 1;
      round := n;
    }
  }
}
