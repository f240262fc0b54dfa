/** What a pass of a claim comes to when nothing else happens meanwhile: from
    every state, which of its own steps it takes, what it writes and how it
    ends, in terms of what the cache and the server hold. */
module AdoptionProgress {
  import opened Common
  import opened Adoption
  import opened AdoptionSafety
  import opened AdoptionBinding
  import opened AdoptionTheorems
  import opened AdoptionExact

  // ----- Walks -----

  // Exactly these steps lead from s to t.
  ghost predicate Walk(s: State, steps: seq<Step>, t: State)
    decreases |steps|
  {
    && Shape(s)
    && if steps == [] then t == s else Enabled(s, steps[0]) && Walk(Next(s, steps[0]), steps[1..], t)
  }

  lemma {:induction false} Then(s: State, steps: seq<Step>, u: State, a: Step)
    requires Walk(s, steps, u) && Shape(u) && Enabled(u, a) && Shape(Next(u, a))
    ensures Walk(s, steps + [a], Next(u, a))
    decreases |steps|
  {
    hide Next, Enabled;
    var more := steps + [a];
    if steps == [] {
      assert more[0] == a && more[1..] == [];
    } else {
      assert more[0] == steps[0] && more[1..] == steps[1..] + [a];
      Then(Next(s, steps[0]), steps[1..], u, a);
    }
  }

  // The state with another value for one claim.
  function With(s: State, c: ClaimId, k: Claim): State {
    s.(claims := s.claims[c := k])
  }

  // The claim at another place of its pass.
  function At(k: Claim, pc: Pc): Claim {
    k.(pass := k.pass.(pc := pc))
  }

  // The claim after one more version, at another place.
  function Wrote(k: Claim, recorded: Option<Name>, pass: Pass): Claim {
    Claim(k.pool, Tracked(k.obj.hist + [ClaimVersion(recorded, false)], k.obj.seen), pass)
  }

  // The claim's last version on the server.
  function OnServer(k: Claim): ClaimVersion
    requires k.obj.hist != []
  {
    k.obj.hist[|k.obj.hist| - 1]
  }

  // A sandbox that a claim of this pool may take.
  predicate Free(sb: Sandbox, pool: PoolName) {
    sb.owner == PoolOwned(pool) && sb.labelled && !sb.deleting
  }

  function Given(sb: Sandbox, c: ClaimId): Sandbox {
    Sandbox(ClaimOwned(c), sb.deleting, false, sb.cold)
  }

  // ----- Single steps -----

  lemma {:induction false} Begins(s: State, c: ClaimId)
    requires Shape(s) && c in s.claims && PcOf(s, c).Idle?
    requires 0 < s.claims[c].obj.seen && !s.claims[c].obj.hist[s.claims[c].obj.seen - 1].gone
    ensures var k := s.claims[c]; var t := With(s, c, k.(pass := Pass(Look(k.obj.seen), None, None)));
      Enabled(s, Begin(c)) && Next(s, Begin(c)) == t && Shape(t)
  {
  }

  /** Where the look-up of a recorded sandbox leads, from what the cache shows
      of it. */
  function Destination(known: Option<Sandbox>, version: nat, c: ClaimId, pool: PoolName, ver: nat, name: Name): Pc {
    if known.None? then Removing(name)
    else if known.value.owner == ClaimOwned(c) then Ended(Adopted(name))
    else if Free(known.value, pool) then Transferring(name, version, false)
    else if known.value.owner.Unowned? then Search(ver)
    else Removing(name)
  }

  lemma {:induction false} LooksUp(s: State, c: ClaimId, ver: nat)
    requires Shape(s) && c in s.claims && PcOf(s, c) == Look(ver) && 0 < ver <= |s.claims[c].obj.hist|
    ensures var k := s.claims[c]; var ref := k.obj.hist[ver - 1].recorded;
      var pc := if ref.None? then Search(ver)
                else if ref.value in s.sandboxes
                then Destination(Known(s, ref.value), s.sandboxes[ref.value].seen, c, k.pool, ver, ref.value)
                else Removing(ref.value);
      Enabled(s, LookUp(c)) && Next(s, LookUp(c)) == With(s, c, At(k, pc)) && Shape(With(s, c, At(k, pc)))
  {
  }

  lemma {:induction false} Removes(s: State, c: ClaimId, name: Name)
    requires Shape(s) && c in s.claims && PcOf(s, c) == Removing(name) && !OnServer(s.claims[c]).gone
    ensures var k := s.claims[c]; var n := |k.obj.hist|;
      var after := if OnServer(k).recorded.None? then At(k, Search(n)) else Wrote(k, None, k.pass.(pc := Search(n + 1)));
      Enabled(s, Remove(c)) && Next(s, Remove(c)) == With(s, c, after) && Shape(With(s, c, after))
  {
  }

  lemma {:induction false} Picks(s: State, c: ClaimId, m: Name)
    requires Shape(s) && c in s.claims && PcOf(s, c).Search? && m in s.sandboxes
    requires Known(s, m).Some? && Free(Known(s, m).value, s.claims[c].pool)
    ensures var k := s.claims[c]; var after := At(k, Assigning(k.pass.pc.ver, m, s.sandboxes[m].seen));
      Enabled(s, Pick(c, m)) && Next(s, Pick(c, m)) == With(s, c, after) && Shape(With(s, c, after))
  {
  }

  lemma {:induction false} Assigns(s: State, c: ClaimId, ver: nat, m: Name, base: nat)
    requires Shape(s) && c in s.claims && PcOf(s, c) == Assigning(ver, m, base)
    ensures var k := s.claims[c];
      var after := if OnServer(k).gone then At(k, Ended(Failed))
                   else if ver == |k.obj.hist| then Wrote(k, Some(m), Pass(Transferring(m, base, false), Some(m), k.pass.moved))
                   else At(k, Rereading(m, base));
      Enabled(s, Assign(c)) && Next(s, Assign(c)) == With(s, c, after) && Shape(With(s, c, after))
  {
  }

  lemma {:induction false} Rereads(s: State, c: ClaimId, m: Name, base: nat)
    requires Shape(s) && c in s.claims && PcOf(s, c) == Rereading(m, base)
    ensures var k := s.claims[c];
      var free := !OnServer(k).gone && OnServer(k).recorded in {None, Some(m)};
      var after := At(k, if free then Reassigning(|k.obj.hist|, m, base) else Ended(Failed));
      Enabled(s, Reread(c)) && Next(s, Reread(c)) == With(s, c, after) && Shape(With(s, c, after))
  {
  }

  lemma {:induction false} Reassigns(s: State, c: ClaimId, ver: nat, m: Name, base: nat)
    requires Shape(s) && c in s.claims && PcOf(s, c) == Reassigning(ver, m, base)
    ensures var k := s.claims[c];
      var after := if ver == |k.obj.hist| && !OnServer(k).gone
                   then Wrote(k, Some(m), Pass(Transferring(m, base, false), Some(m), k.pass.moved))
                   else At(k, Rereading(m, base));
      Enabled(s, Reassign(c)) && Next(s, Reassign(c)) == With(s, c, after) && Shape(With(s, c, after))
  {
  }

  lemma {:induction false} TransferMoves(s: State, c: ClaimId, n: Name, inner: bool)
    requires Shape(s) && c in s.claims && n in s.sandboxes && Server(s, n).Some?
    requires PcOf(s, c) == Transferring(n, |s.sandboxes[n].hist|, inner)
    ensures var k := s.claims[c]; var o := s.sandboxes[n];
      var after := State(s.sandboxes[n := Tracked(o.hist + [Live(Given(Server(s, n).value, c))], o.seen)],
                         s.claims[c := k.(pass := Pass(Ended(Adopted(n)), k.pass.committed, Some(n)))]);
      Enabled(s, Transfer(c)) && Next(s, Transfer(c)) == after && Shape(after)
  {
  }

  lemma {:induction false} TransferRefused(s: State, c: ClaimId, n: Name, base: nat)
    requires Shape(s) && c in s.claims && n in s.sandboxes && PcOf(s, c) == Transferring(n, base, false)
    requires base != |s.sandboxes[n].hist| || Server(s, n).None?
    ensures var after := At(s.claims[c], Resolving(n));
      Enabled(s, Transfer(c)) && Next(s, Transfer(c)) == With(s, c, after) && Shape(With(s, c, after))
  {
  }

  // A second transfer that is refused: a sandbox that is gone is given up, a changed one is read again.
  lemma {:induction false} SecondTransferRefused(s: State, c: ClaimId, n: Name, base: nat)
    requires Shape(s) && c in s.claims && n in s.sandboxes && PcOf(s, c) == Transferring(n, base, true)
    requires base != |s.sandboxes[n].hist| || Server(s, n).None?
    ensures var after := At(s.claims[c], if Server(s, n).None? then Clearing(n) else Resolving(n));
      Enabled(s, Transfer(c)) && Next(s, Transfer(c)) == With(s, c, after) && Shape(With(s, c, after))
  {
  }

  lemma {:induction false} Resolves(s: State, c: ClaimId, n: Name)
    requires Shape(s) && c in s.claims && n in s.sandboxes && PcOf(s, c) == Resolving(n)
    ensures var k := s.claims[c]; var sb := Server(s, n);
      var after := At(k, if sb.Some? && sb.value.owner == ClaimOwned(c) then Ended(Adopted(n))
                         else if sb.Some? && Free(sb.value, k.pool) then Transferring(n, |s.sandboxes[n].hist|, true)
                         else Clearing(n));
      Enabled(s, Resolve(c)) && Next(s, Resolve(c)) == With(s, c, after) && Shape(With(s, c, after))
  {
  }

  lemma {:induction false} ClearReads(s: State, c: ClaimId, n: Name)
    requires Shape(s) && c in s.claims && PcOf(s, c) == Clearing(n)
    ensures var k := s.claims[c];
      var after := At(k, if OnServer(k) == ClaimVersion(Some(n), false) then ClearWriting(|k.obj.hist|, n) else Ended(Cleared(n)));
      Enabled(s, ClearRead(c)) && Next(s, ClearRead(c)) == With(s, c, after) && Shape(With(s, c, after))
  {
  }

  lemma {:induction false} ClearWrites(s: State, c: ClaimId, ver: nat, n: Name)
    requires Shape(s) && c in s.claims && PcOf(s, c) == ClearWriting(ver, n)
    ensures var k := s.claims[c];
      var after := if ver == |k.obj.hist| && !OnServer(k).gone then Wrote(k, None, k.pass.(pc := Ended(Cleared(n))))
                   else At(k, Clearing(n));
      Enabled(s, ClearWrite(c)) && Next(s, ClearWrite(c)) == With(s, c, after) && Shape(With(s, c, after))
  {
  }

  // ----- A claim that refers to a sandbox -----

  // The claim's pass is to begin, on a version that records this sandbox.
  ghost predicate Refers(s: State, c: ClaimId, r: Name) {
    && Shape(s) && c in s.claims && PcOf(s, c).Idle?
    && 0 < s.claims[c].obj.seen && s.claims[c].obj.hist[s.claims[c].obj.seen - 1] == ClaimVersion(Some(r), false)
  }

  // A pass looks its reference up.
  lemma {:induction false} ReferenceLookedUp(s: State, c: ClaimId, r: Name) returns (t: State)
    requires Refers(s, c, r)
    ensures Walk(s, [Begin(c), LookUp(c)], t) && Shape(t)
    ensures var k := s.claims[c];
      var pc := if r in s.sandboxes
                then Destination(Known(s, r), s.sandboxes[r].seen, c, k.pool, k.obj.seen, r) else Removing(r);
      t == With(s, c, k.(pass := Pass(pc, None, None)))
  {
    hide Next, Enabled, Destination;
    var k := s.claims[c];
    Begins(s, c);
    var u := Next(s, Begin(c));
    Then(s, [], s, Begin(c));
    LooksUp(u, c, k.obj.seen);
    t := Next(u, LookUp(c));
    assert Known(u, r) == Known(s, r);
    Then(s, [] + [Begin(c)], u, LookUp(c));
    assert [] + [Begin(c)] + [LookUp(c)] == [Begin(c), LookUp(c)];
  }

  /** A pass whose claim records a sandbox that the cache shows as its own
      ends with it, and writes nothing. */
  lemma {:induction false} OwnIsFound(s: State, c: ClaimId, r: Name)
    requires Refers(s, c, r) && r in s.sandboxes && Known(s, r).Some? && Known(s, r).value.owner == ClaimOwned(c)
    ensures Walk(s, [Begin(c), LookUp(c)], With(s, c, s.claims[c].(pass := Pass(Ended(Adopted(r)), None, None))))
  {
    var t := ReferenceLookedUp(s, c, r);
  }

  // The cache does not know the sandbox, or shows it as another claim's or as one that cannot be adopted.
  predicate Dead(s: State, c: ClaimId, r: Name)
    requires c in s.claims && (r in s.sandboxes ==> s.sandboxes[r].seen <= |s.sandboxes[r].hist|)
  {
    r in s.sandboxes && Known(s, r).Some? ==>
      var sb := Known(s, r).value;
      sb.owner != ClaimOwned(c) && !sb.owner.Unowned? && !Free(sb, s.claims[c].pool)
  }

  lemma {:induction false} DeadLookedUp(s: State, c: ClaimId, r: Name) returns (t: State)
    requires Refers(s, c, r) && Dead(s, c, r)
    ensures Walk(s, [Begin(c), LookUp(c)], t) && Shape(t)
    ensures t == With(s, c, s.claims[c].(pass := Pass(Removing(r), None, None)))
  {
    hide Next, Enabled;
    t := ReferenceLookedUp(s, c, r);
  }

  /** A reference to a dead sandbox is removed from the claim, and the pass
      searches. */
  lemma {:induction false} DeadReferenceIsRemoved(s: State, c: ClaimId, r: Name)
    requires Refers(s, c, r) && Dead(s, c, r) && !OnServer(s.claims[c]).gone
    ensures var k := s.claims[c]; var n := |k.obj.hist|;
      var after := if OnServer(k).recorded.None? then k.(pass := Pass(Search(n), None, None))
                   else Wrote(k, None, Pass(Search(n + 1), None, None));
      Walk(s, [Begin(c), LookUp(c), Remove(c)], With(s, c, after)) && OnServer(after).recorded.None?
  {
    hide Next, Enabled, Dead;
    var k := s.claims[c];
    var u := DeadLookedUp(s, c, r);
    Removes(u, c, r);
    Then(s, [Begin(c), LookUp(c)], u, Remove(c));
    assert [Begin(c), LookUp(c)] + [Remove(c)] == [Begin(c), LookUp(c), Remove(c)];
    var n := |k.obj.hist|;
    var after := if OnServer(k).recorded.None? then k.(pass := Pass(Search(n), None, None))
                 else Wrote(k, None, Pass(Search(n + 1), None, None));
    assert Next(u, Remove(c)) == With(s, c, after);
  }

  // ----- A transfer, once the reference is recorded -----

  // The claim is about to transfer this sandbox, read at some version.
  ghost predicate Ready(s: State, c: ClaimId, n: Name) {
    Shape(s) && c in s.claims && n in s.sandboxes && PcOf(s, c).Transferring? && PcOf(s, c).name == n && !PcOf(s, c).inner
  }

  // The claim controls the sandbox, and its pass ended so.
  ghost predicate Has(t: State, c: ClaimId, n: Name) {
    && Shape(t) && c in t.claims && PcOf(t, c) == Ended(Adopted(n))
    && Server(t, n).Some? && Server(t, n).value.owner == ClaimOwned(c)
  }

  lemma {:induction false} TransferHas(s: State, c: ClaimId, n: Name, inner: bool)
    requires Shape(s) && c in s.claims && n in s.sandboxes && Server(s, n).Some?
    requires PcOf(s, c) == Transferring(n, |s.sandboxes[n].hist|, inner)
    ensures Enabled(s, Transfer(c)) && Has(Next(s, Transfer(c)), c, n)
    ensures Next(s, Transfer(c)).claims[c].obj == s.claims[c].obj
    ensures Server(Next(s, Transfer(c)), n) == Some(Given(Server(s, n).value, c))
  {
    TransferMoves(s, c, n, inner);
  }

  /** A recorded sandbox that is free, as the cache shows too, is adopted. */
  lemma {:induction false} ReferenceIsAdopted(s: State, c: ClaimId, r: Name) returns (t: State)
    requires Refers(s, c, r) && r in s.sandboxes && s.sandboxes[r].seen == |s.sandboxes[r].hist|
    requires Server(s, r).Some? && Free(Server(s, r).value, s.claims[c].pool)
    ensures Walk(s, [Begin(c), LookUp(c), Transfer(c)], t) && Has(t, c, r) && t.claims[c].obj == s.claims[c].obj
  {
    hide Next, Enabled;
    var u := ReferenceLookedUp(s, c, r);
    TransferHas(u, c, r, false);
    Then(s, [Begin(c), LookUp(c)], u, Transfer(c));
    t := Next(u, Transfer(c));
    assert [Begin(c), LookUp(c)] + [Transfer(c)] == [Begin(c), LookUp(c), Transfer(c)];
  }

  /** A transfer that is not in time is settled on a fresh read: if the
      sandbox is the claim's by now the pass ends with it; if it is still free
      it is transferred after all; and otherwise the reference is cleared, if
      it is still there. Nothing is left undecided. */
  lemma {:induction false} LateTransferIsSettled(s: State, c: ClaimId, n: Name) returns (steps: seq<Step>, t: State)
    requires Ready(s, c, n) && (PcOf(s, c).base != |s.sandboxes[n].hist| || Server(s, n).None?)
    ensures Walk(s, steps, t) && Shape(t) && c in t.claims
    ensures var k := s.claims[c]; var sb := Server(s, n);
      if sb.Some? && sb.value.owner == ClaimOwned(c) then
        steps == [Transfer(c), Resolve(c)] && t == With(s, c, At(k, Ended(Adopted(n))))
      else if sb.Some? && Free(sb.value, k.pool) then
        steps == [Transfer(c), Resolve(c), Transfer(c)] && Has(t, c, n) && t.claims[c].obj == k.obj
      else if OnServer(k) == ClaimVersion(Some(n), false) then
        && steps == [Transfer(c), Resolve(c), ClearRead(c), ClearWrite(c)]
        && t == With(s, c, Wrote(k, None, k.pass.(pc := Ended(Cleared(n)))))
      else steps == [Transfer(c), Resolve(c), ClearRead(c)] && t == With(s, c, At(k, Ended(Cleared(n))))
  {
    var k, sb := s.claims[c], Server(s, n);
    hide Next, Enabled;
    TransferRefused(s, c, n, PcOf(s, c).base);
    var u := Next(s, Transfer(c));
    Then(s, [], s, Transfer(c));
    Resolves(u, c, n);
    var v := Next(u, Resolve(c));
    Then(s, [] + [Transfer(c)], u, Resolve(c));
    steps := [Transfer(c), Resolve(c)];
    assert [] + [Transfer(c)] + [Resolve(c)] == steps;
    t := v;
    if sb.Some? && sb.value.owner == ClaimOwned(c) {
      assert v == With(s, c, At(k, Ended(Adopted(n))));
    } else if sb.Some? && Free(sb.value, k.pool) {
      TransferHas(v, c, n, true);
      Then(s, steps, v, Transfer(c));
      t := Next(v, Transfer(c));
      assert steps + [Transfer(c)] == [Transfer(c), Resolve(c), Transfer(c)];
      steps := [Transfer(c), Resolve(c), Transfer(c)];
    } else {
      steps, t := ReferenceCleared(s, c, n, v);
    }
  }

  lemma {:induction false} ReferenceCleared(s: State, c: ClaimId, n: Name, v: State)
    returns (steps: seq<Step>, t: State)
    requires Shape(s) && c in s.claims && Walk(s, [Transfer(c), Resolve(c)], v) && Shape(v)
    requires v == With(s, c, At(s.claims[c], Clearing(n)))
    ensures Walk(s, steps, t) && Shape(t)
    ensures var k := s.claims[c];
      if OnServer(k) == ClaimVersion(Some(n), false) then
        && steps == [Transfer(c), Resolve(c), ClearRead(c), ClearWrite(c)]
        && t == With(s, c, Wrote(k, None, k.pass.(pc := Ended(Cleared(n)))))
      else steps == [Transfer(c), Resolve(c), ClearRead(c)] && t == With(s, c, At(k, Ended(Cleared(n))))
  {
    hide Next, Enabled;
    var k := s.claims[c];
    steps := [Transfer(c), Resolve(c)];
    ClearReads(v, c, n);
    var w := Next(v, ClearRead(c));
    Then(s, steps, v, ClearRead(c));
    assert steps + [ClearRead(c)] == [Transfer(c), Resolve(c), ClearRead(c)];
    steps, t := [Transfer(c), Resolve(c), ClearRead(c)], w;
    if OnServer(k) == ClaimVersion(Some(n), false) {
      ClearWrites(w, c, |k.obj.hist|, n);
      Then(s, steps, w, ClearWrite(c));
      assert steps + [ClearWrite(c)] == [Transfer(c), Resolve(c), ClearRead(c), ClearWrite(c)];
      steps, t := [Transfer(c), Resolve(c), ClearRead(c), ClearWrite(c)], Next(w, ClearWrite(c));
      assert t == With(s, c, Wrote(k, None, k.pass.(pc := Ended(Cleared(n)))));
    } else {
      assert t == With(s, c, At(k, Ended(Cleared(n))));
    }
  }

  // ----- A search that found a candidate -----

  // The claim searches, and the cache shows it this free sandbox.
  ghost predicate Finds(s: State, c: ClaimId, m: Name) {
    && Shape(s) && c in s.claims && PcOf(s, c).Search? && m in s.sandboxes
    && Known(s, m).Some? && Free(Known(s, m).value, s.claims[c].pool)
  }

  /** A pass that found a candidate records it on the claim, under the claim's
      lock, on a fresh read if its own was stale; unless the claim is gone, or
      records another sandbox by then, when it writes nothing. */
  lemma {:induction false} CandidateIsRecorded(s: State, c: ClaimId, m: Name) returns (steps: seq<Step>, t: State)
    requires Finds(s, c, m)
    ensures Walk(s, steps, t) && Shape(t)
    ensures var k := s.claims[c]; var base := s.sandboxes[m].seen;
      var recorded := Wrote(k, Some(m), Pass(Transferring(m, base, false), Some(m), k.pass.moved));
      if OnServer(k).gone then steps == [Pick(c, m), Assign(c)] && t == With(s, c, At(k, Ended(Failed)))
      else if k.pass.pc.ver == |k.obj.hist| then steps == [Pick(c, m), Assign(c)] && t == With(s, c, recorded)
      else if OnServer(k).recorded in {None, Some(m)} then
        steps == [Pick(c, m), Assign(c), Reread(c), Reassign(c)] && t == With(s, c, recorded)
      else steps == [Pick(c, m), Assign(c), Reread(c)] && t == With(s, c, At(k, Ended(Failed)))
  {
    hide Next, Enabled;
    var k, base := s.claims[c], s.sandboxes[m].seen;
    var recorded := Wrote(k, Some(m), Pass(Transferring(m, base, false), Some(m), k.pass.moved));
    Picks(s, c, m);
    var u := Next(s, Pick(c, m));
    Then(s, [], s, Pick(c, m));
    Assigns(u, c, k.pass.pc.ver, m, base);
    t := Next(u, Assign(c));
    Then(s, [] + [Pick(c, m)], u, Assign(c));
    steps := [Pick(c, m), Assign(c)];
    assert [] + [Pick(c, m)] + [Assign(c)] == steps;
    if OnServer(k).gone {
      assert t == With(s, c, At(k, Ended(Failed)));
    } else if k.pass.pc.ver == |k.obj.hist| {
      assert t == With(s, c, recorded);
    } else {
      assert t == With(s, c, At(k, Rereading(m, base)));
      steps, t := Rerecorded(s, c, m, base, t);
    }
  }

  lemma {:induction false} Rerecorded(s: State, c: ClaimId, m: Name, base: nat, v: State)
    returns (steps: seq<Step>, t: State)
    requires Shape(s) && c in s.claims && Walk(s, [Pick(c, m), Assign(c)], v) && Shape(v)
    requires v == With(s, c, At(s.claims[c], Rereading(m, base))) && !OnServer(s.claims[c]).gone
    ensures Walk(s, steps, t) && Shape(t)
    ensures var k := s.claims[c];
      if OnServer(k).recorded in {None, Some(m)} then
        && steps == [Pick(c, m), Assign(c), Reread(c), Reassign(c)]
        && t == With(s, c, Wrote(k, Some(m), Pass(Transferring(m, base, false), Some(m), k.pass.moved)))
      else steps == [Pick(c, m), Assign(c), Reread(c)] && t == With(s, c, At(k, Ended(Failed)))
  {
    hide Next, Enabled;
    var k := s.claims[c];
    steps := [Pick(c, m), Assign(c)];
    Rereads(v, c, m, base);
    t := Next(v, Reread(c));
    Then(s, steps, v, Reread(c));
    assert steps + [Reread(c)] == [Pick(c, m), Assign(c), Reread(c)];
    steps := [Pick(c, m), Assign(c), Reread(c)];
    if OnServer(k).recorded in {None, Some(m)} {
      Reassigns(t, c, |k.obj.hist|, m, base);
      Then(s, steps, t, Reassign(c));
      assert steps + [Reassign(c)] == [Pick(c, m), Assign(c), Reread(c), Reassign(c)];
      steps, t := [Pick(c, m), Assign(c), Reread(c), Reassign(c)], Next(t, Reassign(c));
      assert t == With(s, c, Wrote(k, Some(m), Pass(Transferring(m, base, false), Some(m), k.pass.moved)));
    } else {
      assert t == With(s, c, At(k, Ended(Failed)));
    }
  }

  /** A pass that found a free sandbox, as the cache shows it, adopts it: the
      claim records it and controls it at the end. */
  lemma {:induction false} CandidateIsAdopted(s: State, c: ClaimId, m: Name) returns (steps: seq<Step>, t: State)
    requires Finds(s, c, m) && s.sandboxes[m].seen == |s.sandboxes[m].hist|
    requires OnServer(s.claims[c]) == ClaimVersion(None, false)
    ensures Walk(s, steps, t) && Has(t, c, m) && OnServer(t.claims[c]) == ClaimVersion(Some(m), false)
  {
    hide Next, Enabled;
    var first, u := CandidateIsRecorded(s, c, m);
    TransferHas(u, c, m, false);
    Then(s, first, u, Transfer(c));
    steps, t := first + [Transfer(c)], Next(u, Transfer(c));
  }

  // ----- A search that found none -----

  lemma {:induction false} ColdChecks(s: State, c: ClaimId)
    requires Shape(s) && c in s.claims && PcOf(s, c).Search?
    ensures var free := OnServer(s.claims[c]) == ClaimVersion(None, false);
      var after := At(s.claims[c], if free then Creating(true) else Ended(Failed));
      Enabled(s, ColdCheck(c)) && Next(s, ColdCheck(c)) == With(s, c, after) && Shape(With(s, c, after))
  {
  }

  lemma {:induction false} ColdCreates(s: State, c: ClaimId, n: Name)
    requires Shape(s) && c in s.claims && n !in s.sandboxes
    ensures Enabled(s, ColdCreate(c, n)) <==> PcOf(s, c).Creating?
    ensures PcOf(s, c).Creating? ==>
      var t := Next(s, ColdCreate(c, n));
      && Shape(t) && HoldsCold(t, c, n) && c in t.claims && PcOf(t, c).Ended?
      && forall m | m != n :: Server(t, m) == Server(s, m)
  {
  }

  /** The cold start after a fresh read, exactly: the pass goes on to create if
      and only if the claim on the server is not gone and records nothing. Then
      for every unused name it creates a sandbox of the claim's own, and in a
      state that keeps the binding the claim has no other. */
  lemma {:induction false} ColdStartExact(s: State, c: ClaimId, n: Name)
    requires Shape(s) && c in s.claims && PcOf(s, c).Search? && n !in s.sandboxes
    ensures Enabled(s, ColdCheck(c)) && Shape(Next(s, ColdCheck(c)))
    ensures var u := Next(s, ColdCheck(c));
      && u.sandboxes == s.sandboxes && c in u.claims && u.claims[c].obj == s.claims[c].obj
      && (Enabled(u, ColdCreate(c, n)) <==> OnServer(s.claims[c]) == ClaimVersion(None, false))
      && (!Enabled(u, ColdCreate(c, n)) ==> PcOf(u, c) == Ended(Failed))
    ensures OnServer(s.claims[c]) == ClaimVersion(None, false) ==>
      var u := Next(s, ColdCheck(c)); var t := Next(u, ColdCreate(c, n));
      && Shape(t) && HoldsCold(t, c, n) && c in t.claims && PcOf(t, c).Ended?
      && (forall m | m != n :: Server(t, m) == Server(s, m))
      && (Bind(s) ==> forall m :: !Holds(t, c, m))
  {
    hide Next, Enabled;
    ColdChecks(s, c);
    var u := Next(s, ColdCheck(c));
    ColdCreates(u, c, n);
    if OnServer(s.claims[c]) == ClaimVersion(None, false) && Bind(s) {
      NothingHeld(s, c, n, Next(u, ColdCreate(c, n)));
    }
  }

  lemma {:induction false} NothingHeld(s: State, c: ClaimId, n: Name, t: State)
    requires Bind(s) && c in s.claims && OnServer(s.claims[c]) == ClaimVersion(None, false)
    requires Shape(t) && HoldsCold(t, c, n) && forall m | m != n :: Server(t, m) == Server(s, m)
    ensures forall m :: !Holds(t, c, m)
  {
    forall m
      ensures !Holds(t, c, m)
    {
      if m != n && Holds(s, c, m) {
        HeldIsRecorded(s, c, m);
      }
    }
  }

  /** Put together: a claim whose cached version records nothing, whose server
      version does not either, and which finds no candidate, ends a pass with a
      sandbox made for it. */
  lemma {:induction false} ColdStartCreates(s: State, c: ClaimId, n: Name) returns (t: State)
    requires Shape(s) && c in s.claims && PcOf(s, c).Idle? && n !in s.sandboxes
    requires 0 < s.claims[c].obj.seen && s.claims[c].obj.hist[s.claims[c].obj.seen - 1] == ClaimVersion(None, false)
    requires OnServer(s.claims[c]) == ClaimVersion(None, false)
    ensures Walk(s, [Begin(c), LookUp(c), ColdCheck(c), ColdCreate(c, n)], t) && Shape(t) && HoldsCold(t, c, n)
  {
    hide Next, Enabled;
    Begins(s, c);
    var u := Next(s, Begin(c));
    Then(s, [], s, Begin(c));
    LooksUp(u, c, s.claims[c].obj.seen);
    var v := Next(u, LookUp(c));
    Then(s, [] + [Begin(c)], u, LookUp(c));
    ColdStartExact(v, c, n);
    var w := Next(v, ColdCheck(c));
    Then(s, [] + [Begin(c)] + [LookUp(c)], v, ColdCheck(c));
    t := Next(w, ColdCreate(c, n));
    Then(s, [] + [Begin(c)] + [LookUp(c)] + [ColdCheck(c)], w, ColdCreate(c, n));
    assert [] + [Begin(c)] + [LookUp(c)] + [ColdCheck(c)] + [ColdCreate(c, n)]
        == [Begin(c), LookUp(c), ColdCheck(c), ColdCreate(c, n)];
  }
}
