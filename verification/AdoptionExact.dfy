/** The unlocked reference removal, exactly: it can cost a claim its one warm
    sandbox if and only if the reference it removes is one the claim holds or
    could still get. */
module AdoptionExact {
  import opened Common
  import opened Adoption
  import opened AdoptionSafety
  import opened AdoptionBinding
  import opened AdoptionTheorems

  // ----- Courses of careful steps -----

  ghost predicate CarefulStep(s: State, a: Step, t: State) {
    Takes(s, a, t) && (a.Remove? ==> Harmless(s, a.c))
  }

  ghost predicate IsCourse(states: seq<State>, steps: seq<Step>) {
    && |states| == |steps| + 1
    && forall i | 0 <= i < |steps| :: CarefulStep(states[i], steps[i], states[i + 1])
  }

  // t comes after s by careful steps, any number of them.
  ghost predicate Onward(s: State, t: State) {
    exists states, steps :: IsCourse(states, steps) && states[0] == s && states[|steps|] == t
  }

  lemma {:induction false} OnwardFrom(s: State)
    ensures Onward(s, s)
  {
    var steps: seq<Step> := [];
    assert IsCourse([s], steps) && [s][0] == s && [s][|steps|] == s;
  }

  lemma {:induction false} OnwardStep(s: State, t: State, a: Step, u: State)
    requires Onward(s, t) && CarefulStep(t, a, u)
    ensures Onward(s, u)
  {
    var states, steps :| IsCourse(states, steps) && states[0] == s && states[|steps|] == t;
    var longer, more := states + [u], steps + [a];
    forall i | 0 <= i < |more|
      ensures CarefulStep(longer[i], more[i], longer[i + 1])
    {
      if i < |steps| {
        assert CarefulStep(states[i], steps[i], states[i + 1]);
      }
    }
    assert IsCourse(longer, more) && longer[0] == s && longer[|more|] == u;
  }

  lemma {:induction false} CourseBinds(states: seq<State>, steps: seq<Step>, i: nat)
    requires IsCourse(states, steps) && i < |states| && Bind(states[0])
    ensures Bind(states[i])
  {
    if i > 0 {
      CourseBinds(states, steps, i - 1);
      assert CarefulStep(states[i - 1], steps[i - 1], states[i - 1 + 1]);
      StepBind(states[i - 1], steps[i - 1]);
    }
  }

  // Some claim controls two live adopted sandboxes.
  ghost predicate Doubled(t: State) {
    Shape(t) && exists c, n, m :: n != m && Holds(t, c, n) && Holds(t, c, m)
  }

  lemma {:induction false} BoundIsSingle(s: State, t: State)
    requires Bind(s) && Onward(s, t)
    ensures !Doubled(t)
  {
    var states, steps :| IsCourse(states, steps) && states[0] == s && states[|steps|] == t;
    CourseBinds(states, steps, |steps|);
    forall c, n, m | Holds(t, c, n) && Holds(t, c, m)
      ensures n == m
    {
      HeldIsRecorded(t, c, n);
      HeldIsRecorded(t, c, m);
    }
  }

  // ----- The steps of a claim and two sandboxes -----

  /** What the course below needs to know of a state: the claim, a sandbox r,
      and a sandbox m that may not be there yet. */
  ghost predicate Scene(s: State, c: ClaimId, k: Claim, r: Name, o: Tracked<SandboxVersion>,
                        m: Name, p: Option<Tracked<SandboxVersion>>) {
    && Shape(s) && m != r
    && c in s.claims && s.claims[c] == k
    && r in s.sandboxes && s.sandboxes[r] == o
    && (if p.None? then m !in s.sandboxes else m in s.sandboxes && s.sandboxes[m] == p.value)
  }

  function Warm(pool: PoolName): Sandbox { Sandbox(PoolOwned(pool), false, true, false) }

  function Mine(sb: Sandbox, c: ClaimId): Sandbox { sb.(owner := ClaimOwned(c), labelled := false) }

  // A spare sandbox comes up in the pool, and the cache sees it.
  lemma {:induction false} SpareComes(s0: State, s: State, c: ClaimId, k: Claim, r: Name, o: Tracked<SandboxVersion>,
                                      m: Name) returns (t: State)
    requires Onward(s0, s) && Scene(s, c, k, r, o, m, None)
    ensures Onward(s0, t) && Scene(t, c, k, r, o, m, Some(Tracked([Live(Warm(k.pool))], 1)))
  {
    var u := Next(s, SandboxNew(m, Warm(k.pool)));
    OnwardStep(s0, s, SandboxNew(m, Warm(k.pool)), u);
    t := Next(u, CacheSandbox(m));
    OnwardStep(s0, u, CacheSandbox(m), t);
  }

  // The claim commits the spare sandbox on its current version.
  lemma {:induction false} SpareCommitted(s0: State, s: State, c: ClaimId, k: Claim, r: Name,
                                          o: Tracked<SandboxVersion>, m: Name) returns (t: State)
    requires Onward(s0, s) && Scene(s, c, k, r, o, m, Some(Tracked([Live(Warm(k.pool))], 1)))
    requires k.obj.hist != [] && k.pass.pc == Search(|k.obj.hist|) && !Last(k.obj.hist).gone
    ensures Onward(s0, t)
    ensures Scene(t, c, k.(obj := Append(k.obj, ClaimVersion(Some(m), false)),
                           pass := Pass(Transferring(m, 1, false), Some(m), k.pass.moved)),
                  r, o, m, Some(Tracked([Live(Warm(k.pool))], 1)))
  {
    var u := Next(s, Pick(c, m));
    OnwardStep(s0, s, Pick(c, m), u);
    t := Next(u, Assign(c));
    OnwardStep(s0, u, Assign(c), t);
  }

  // A transfer from the last version of r, or of m.
  lemma {:induction false} TransferDone(s0: State, s: State, c: ClaimId, k: Claim, n: Name, inner: bool)
    returns (t: State)
    requires Onward(s0, s) && Shape(s) && c in s.claims && s.claims[c] == k && n in s.sandboxes
    requires Last(s.sandboxes[n].hist).Live? && k.pass.pc == Transferring(n, |s.sandboxes[n].hist|, inner)
    ensures Onward(s0, t) && Shape(t) && c in t.claims
    ensures t.claims[c] == k.(pass := Pass(Ended(Adopted(n)), k.pass.committed, Some(n)))
    ensures t.sandboxes ==
      s.sandboxes[n := Append(s.sandboxes[n], Live(Mine(Last(s.sandboxes[n].hist).sb, c)))]
  {
    t := Next(s, Transfer(c));
    OnwardStep(s0, s, Transfer(c), t);
  }

  // The cache catches up on a claim, to a version not before what it has seen.
  lemma {:induction false} ClaimCached(s0: State, s: State, c: ClaimId, k: Claim, r: Name, o: Tracked<SandboxVersion>,
                                       m: Name, p: Option<Tracked<SandboxVersion>>, to: nat) returns (t: State)
    requires Onward(s0, s) && Scene(s, c, k, r, o, m, p) && k.obj.seen <= to <= |k.obj.hist|
    ensures Onward(s0, t) && Scene(t, c, k.(obj := k.obj.(seen := to)), r, o, m, p)
    decreases |k.obj.hist| - k.obj.seen
  {
    if k.obj.seen == to {
      return s;
    }
    var u := Next(s, CacheClaim(c));
    OnwardStep(s0, s, CacheClaim(c), u);
    t := ClaimCached(s0, u, c, k.(obj := k.obj.(seen := k.obj.seen + 1)), r, o, m, p, to);
  }

  lemma {:induction false} SandboxCached(s0: State, s: State, c: ClaimId, k: Claim, r: Name, o: Tracked<SandboxVersion>,
                                         m: Name, p: Option<Tracked<SandboxVersion>>) returns (t: State)
    requires Onward(s0, s) && Scene(s, c, k, r, o, m, p) && o.seen <= |o.hist|
    ensures Onward(s0, t) && Scene(t, c, k, r, o.(seen := |o.hist|), m, p)
    decreases |o.hist| - o.seen
  {
    if o.seen == |o.hist| {
      return s;
    }
    var u := Next(s, CacheSandbox(r));
    OnwardStep(s0, s, CacheSandbox(r), u);
    t := SandboxCached(s0, u, c, k, r, o.(seen := o.seen + 1), m, p);
  }

  // A pass begins on the claim as the cache shows it.
  lemma {:induction false} Begun(s0: State, s: State, c: ClaimId) returns (t: State)
    requires Onward(s0, s) && Shape(s) && c in s.claims && PcOf(s, c).Idle?
    requires 0 < s.claims[c].obj.seen && !s.claims[c].obj.hist[s.claims[c].obj.seen - 1].gone
    ensures Onward(s0, t) && Shape(t) && t.sandboxes == s.sandboxes && c in t.claims
    ensures t.claims[c] == s.claims[c].(pass := Pass(Look(s.claims[c].obj.seen), None, None))
  {
    t := Next(s, Begin(c));
    OnwardStep(s0, s, Begin(c), t);
  }

  // A pass on an old version of the claim looks up what that version recorded, and finds it adoptable.
  lemma {:induction false} OldLookedUp(s0: State, s: State, c: ClaimId, k: Claim, r: Name, o: Tracked<SandboxVersion>,
                    m: Name, p: Option<Tracked<SandboxVersion>>) returns (t: State)
    requires Onward(s0, s) && Scene(s, c, k, r, o, m, p) && k.pass.pc.Ended?
    requires 0 < k.obj.seen && k.obj.hist[k.obj.seen - 1] == ClaimVersion(Some(r), false)
    requires o.seen == |o.hist| && Last(o.hist).Live? && Adoptable(Last(o.hist).sb, k.pool)
    ensures Onward(s0, t) && Scene(t, c, k.(pass := Pass(Transferring(r, |o.hist|, false), None, None)), r, o, m, p)
  {
    var u := Next(s, Finish(c));
    OnwardStep(s0, s, Finish(c), u);
    var v := Begun(s0, u, c);
    t := Next(v, LookUp(c));
    OnwardStep(s0, v, LookUp(c), t);
  }

  // ----- A harmful removal -----

  // The claim adopts a spare sandbox beside r, which is as it was.
  lemma {:induction false} SpareAdopted(s0: State, s: State, c: ClaimId, k: Claim, r: Name,
                                        o: Tracked<SandboxVersion>, m: Name) returns (t: State)
    requires Onward(s0, s) && Scene(s, c, k, r, o, m, None)
    requires k.obj.hist != [] && k.pass.pc == Search(|k.obj.hist|) && !Last(k.obj.hist).gone
    ensures Onward(s0, t)
    ensures Scene(t, c, k.(obj := Append(k.obj, ClaimVersion(Some(m), false)),
                           pass := Pass(Ended(Adopted(m)), Some(m), Some(m))),
                  r, o, m, Some(Tracked([Live(Warm(k.pool)), Live(Mine(Warm(k.pool), c))], 1)))
  {
    var u := SpareComes(s0, s, c, k, r, o, m);
    var v := SpareCommitted(s0, u, c, k, r, o, m);
    t := TransferDone(s0, v, c, v.claims[c], m, false);
    assert Append(Tracked([Live(Warm(k.pool))], 1), Live(Mine(Warm(k.pool), c)))
        == Tracked([Live(Warm(k.pool)), Live(Mine(Warm(k.pool), c))], 1);
  }

  // A pass on an old version of the claim adopts the sandbox r that it recorded.
  lemma {:induction false} OldAdopted(s0: State, s: State, c: ClaimId, k: Claim, r: Name, o: Tracked<SandboxVersion>,
                                      m: Name, p: Tracked<SandboxVersion>, at: nat) returns (t: State)
    requires Onward(s0, s) && Scene(s, c, k, r, o, m, Some(p)) && k.pass.pc.Ended?
    requires 0 < at && k.obj.seen <= at <= |k.obj.hist| && k.obj.hist[at - 1] == ClaimVersion(Some(r), false)
    requires o.seen <= |o.hist| && o.hist != [] && Last(o.hist).Live? && Adoptable(Last(o.hist).sb, k.pool)
    ensures Onward(s0, t) && Shape(t) && m in t.sandboxes && t.sandboxes[m] == p
    ensures Server(t, r) == Some(Mine(Last(o.hist).sb, c))
  {
    var u := ClaimCached(s0, s, c, k, r, o, m, Some(p), at);
    var v := SandboxCached(s0, u, c, u.claims[c], r, o, m, Some(p));
    var w := OldLookedUp(s0, v, c, v.claims[c], r, o.(seen := |o.hist|), m, Some(p));
    t := TransferDone(s0, w, c, w.claims[c], r, false);
  }

  // What the removal of the reference to r leaves.
  lemma {:induction false} Removal(s: State, c: ClaimId, r: Name, m: Name) returns (k: Claim)
    requires Shape(s) && Enabled(s, Remove(c)) && Current(s, c).recorded == Some(r)
    requires r in s.sandboxes && m !in s.sandboxes
    ensures Scene(Next(s, Remove(c)), c, k, r, s.sandboxes[r], m, None)
    ensures k.obj.hist == s.claims[c].obj.hist + [ClaimVersion(None, false)]
    ensures k.obj.seen == s.claims[c].obj.seen && k.pool == s.claims[c].pool && k.pass.pc == Search(|k.obj.hist|)
  {
    k := Next(s, Remove(c)).claims[c];
  }

  /** After a harmful removal, careful steps alone can leave the claim with
      two live adopted sandboxes: the one whose reference was removed, and any
      other. */
  lemma {:induction false} HarmfulRemovalDoubles(s: State, c: ClaimId, m: Name) returns (t: State)
    requires Core(s) && Enabled(s, Remove(c)) && !Harmless(s, c) && m !in s.sandboxes
    ensures Onward(Next(s, Remove(c)), t) && Shape(t)
    ensures Holds(t, c, m) && Holds(t, c, Current(s, c).recorded.value) && m != Current(s, c).recorded.value
  {
    var r := Current(s, c).recorded.value;
    var h, o := s.claims[c].obj.hist, s.sandboxes[r];
    assert CoreSandbox(s, r);
    var k := Removal(s, c, r, m);
    var u := Next(s, Remove(c));
    hide Next, Enabled;
    OnwardFrom(u);
    var v := SpareAdopted(u, u, c, k, r, o, m);
    if Last(o.hist).sb.owner == ClaimOwned(c) {
      return v;
    }
    t := OldAdopted(u, v, c, v.claims[c], r, o, m, v.sandboxes[m], |h|);
  }

  // There is always a name that no sandbox has.
  lemma {:induction false} SomeBound(names: set<Name>) returns (n: nat)
    ensures forall x | x in names :: |x| <= n
  {
    n := 0;
    if names != {} {
      var x :| x in names;
      var rest := SomeBound(names - {x});
      n := if |x| > rest then |x| else rest;
    }
  }

  lemma {:induction false} UnusedName(names: set<Name>) returns (m: Name)
    ensures m !in names
  {
    var n := SomeBound(names);
    m := seq(n + 1, _ => 'x');
    assert |m| == n + 1;
  }

  /** The removal, exactly: in every state a careful run can be in, removing
      the reference without a lock is harmless if and only if no careful
      continuation ends with a claim that controls two live adopted
      sandboxes. */
  lemma {:induction false} RemovalExact(s: State, c: ClaimId)
    requires Bind(s) && Enabled(s, Remove(c))
    ensures Harmless(s, c) <==> !exists t :: Onward(Next(s, Remove(c)), t) && Doubled(t)
  {
    var u := Next(s, Remove(c));
    if Harmless(s, c) {
      StepBind(s, Remove(c));
      forall t | Onward(u, t)
        ensures !Doubled(t)
      {
        BoundIsSingle(u, t);
      }
    } else {
      var m := UnusedName(s.sandboxes.Keys);
      var t := HarmfulRemovalDoubles(s, c, m);
      assert Onward(u, t) && Doubled(t);
    }
  }

  // ----- The unchecked cold start -----

  // A live sandbox created cold for the claim.
  ghost predicate HoldsCold(s: State, c: ClaimId, n: Name)
    requires Shape(s)
  {
    Server(s, n).Some? && Server(s, n).value == Sandbox(ClaimOwned(c), false, false, true)
  }

  /** A cold create, exactly: the claim is left with a cold and a warm sandbox
      if and only if the sandbox recorded on the server is one it holds. */
  lemma {:induction false} ColdCreateExact(s: State, c: ClaimId, n: Name)
    requires Bind(s) && Enabled(s, ColdCreate(c, n))
    ensures var t := Next(s, ColdCreate(c, n)); var r := Current(s, c).recorded;
      && Shape(t) && HoldsCold(t, c, n)
      && ((exists m :: Holds(t, c, m)) <==> r.Some? && Holds(s, c, r.value))
  {
    var t, r := Next(s, ColdCreate(c, n)), Current(s, c).recorded;
    forall m
      ensures Holds(t, c, m) <==> Holds(s, c, m)
      ensures Holds(s, c, m) ==> r == Some(m)
    {
      if Holds(s, c, m) {
        HeldIsRecorded(s, c, m);
      }
    }
    if r.Some? && Holds(s, c, r.value) {
      assert Holds(t, c, r.value);
    }
  }

  // A pass whose version of the claim records nothing goes to its search.
  lemma {:induction false} NothingLookedUp(s0: State, s: State, c: ClaimId) returns (t: State)
    requires Onward(s0, s) && Shape(s) && c in s.claims && PcOf(s, c).Look?
    requires 0 < PcOf(s, c).ver <= |s.claims[c].obj.hist| && s.claims[c].obj.hist[PcOf(s, c).ver - 1].recorded.None?
    ensures Onward(s0, t) && Shape(t) && t.sandboxes == s.sandboxes && c in t.claims && PcOf(t, c).Search?
  {
    t := Next(s, LookUp(c));
    OnwardStep(s0, s, LookUp(c), t);
  }

  // A pass goes from its search to a cold create with no fresh read.
  lemma {:induction false} BlindStart(s0: State, s: State, c: ClaimId) returns (t: State)
    requires Onward(s0, s) && Shape(s) && c in s.claims && PcOf(s, c).Search?
    ensures Onward(s0, t) && Shape(t) && t.sandboxes == s.sandboxes && c in t.claims && PcOf(t, c).Creating?
  {
    t := Next(s, ColdBlind(c));
    OnwardStep(s0, s, ColdBlind(c), t);
  }

  /** So an unchecked cold start can double a claim: whenever the cache shows
      a version of the claim from before its assignment, a pass whose fresh
      read fails leaves it with a cold sandbox beside the warm one. */
  lemma {:induction false} BlindColdStartDoubles(s: State, c: ClaimId, m: Name, n: Name) returns (t: State)
    requires Shape(s) && c in s.claims && PcOf(s, c).Idle? && Holds(s, c, m) && n !in s.sandboxes
    requires 0 < s.claims[c].obj.seen && s.claims[c].obj.hist[s.claims[c].obj.seen - 1] == ClaimVersion(None, false)
    ensures Onward(s, t) && Shape(t) && Holds(t, c, m) && HoldsCold(t, c, n)
  {
    OnwardFrom(s);
    var u := Begun(s, s, c);
    var v := NothingLookedUp(s, u, c);
    var w := BlindStart(s, v, c);
    t := Next(w, ColdCreate(c, n));
    OnwardStep(s, w, ColdCreate(c, n), t);
  }
}
