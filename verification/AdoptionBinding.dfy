/** The binding of a claim to its one warm sandbox: kept by every step except
    a reference removal that hits a live assignment. */
module AdoptionBinding {
  import opened Common
  import opened Adoption
  import opened AdoptionSafety

  /** What the unlocked removal needs: the reference now recorded on the
      server is none, or one that can no longer become the claim's. */
  ghost predicate Harmless(s: State, c: ClaimId)
    requires Shape(s) && c in s.claims
  {
    var r := Current(s, c).recorded;
    r.Some? ==> !Alive(s, c, r.value)
  }

  // Every sandbox once recorded on the claim is recorded still, or dead to it.
  ghost predicate Bound(s: State, c: ClaimId)
    requires Shape(s) && c in s.claims
  {
    forall n | n in Ever(s.claims[c].obj.hist) :: Current(s, c).recorded == Some(n) || !Alive(s, c, n)
  }

  ghost predicate BoundPc(s: State, c: ClaimId)
    requires Shape(s) && c in s.claims && CorePc(s, c)
  {
    var h := s.claims[c].obj.hist;
    match PcOf(s, c)
    case Removing(n) => !Alive(s, c, n)
    case Search(ver) => h[ver - 1].recorded.None?
    case Assigning(ver, _, _) => h[ver - 1].recorded.None?
    case Clearing(n) => !Alive(s, c, n)
    case ClearWriting(_, n) => !Alive(s, c, n)
    case Creating(checked) => checked ==> Current(s, c).recorded.None?
    case _ => true
  }

  ghost predicate BindClaim(s: State, c: ClaimId)
    requires Shape(s) && c in s.claims
  {
    CorePc(s, c) && Bound(s, c) && BoundPc(s, c)
  }

  ghost predicate Bind(s: State) {
    Core(s) && forall c | c in s.claims :: BindClaim(s, c)
  }

  // ----- Death is final -----

  lemma {:induction false} DeadStaysSb(x: Sandbox, y: Sandbox, c: ClaimId, pool: PoolName)
    requires Evolves(x, y) && !x.owner.Unowned?
    requires y.owner == ClaimOwned(c) && x.owner != y.owner ==> Adoptable(x, pool)
    ensures AliveSb(y, c, pool) ==> AliveSb(x, c, pool)
  {
  }

  lemma {:induction false} PooledNow(s: State, n: Name, pool: PoolName)
    requires Core(s) && Pooled(s, n, pool)
    ensures Server(s, n).Some? ==> !Server(s, n).value.owner.Unowned?
  {
    assert CoreSandbox(s, n);
    var h := s.sandboxes[n].hist;
    assert Follows(h[s.sandboxes[n].seen - 1], h[|h| - 1]);
  }

  lemma {:induction false} SandboxCommitAlive(s: State, n: Name, v: SandboxVersion, c: ClaimId, m: Name)
    requires Core(s) && n in s.sandboxes && Lawful(s, n, v) && c in s.claims && Pooled(s, m, s.claims[c].pool)
    ensures var t := WithSandbox(s, n, v); Shape(t) && (Alive(t, c, m) ==> Alive(s, c, m))
  {
    var t := WithSandbox(s, n, v);
    if m == n && v.Live? {
      PooledNow(s, n, s.claims[c].pool);
      DeadStaysSb(Last(s.sandboxes[n].hist).sb, v.sb, c, s.claims[c].pool);
    }
  }

  lemma {:induction false} SandboxCommitBind(s: State, n: Name, v: SandboxVersion)
    requires Bind(s) && n in s.sandboxes && Lawful(s, n, v)
    ensures Bind(WithSandbox(s, n, v))
  {
    var t := WithSandbox(s, n, v);
    SandboxCommitCore(s, n, v);
    forall c | c in t.claims
      ensures BindClaim(t, c)
    {
      assert BindClaim(s, c) && CoreClaim(s, c) && CoreClaim(t, c);
      forall m | m in Ever(s.claims[c].obj.hist)
        ensures Alive(t, c, m) ==> Alive(s, c, m)
      {
        SandboxCommitAlive(s, n, v, c, m);
      }
    }
  }

  // ----- Steps of one claim -----

  lemma {:induction false} OneClaimBind(s: State, t: State, c: ClaimId)
    requires Bind(s) && Core(t)
    requires c in t.claims && t.claims == s.claims[c := t.claims[c]]
    requires forall n | n in s.sandboxes :: n in t.sandboxes && t.sandboxes[n].hist == s.sandboxes[n].hist
    requires BindClaim(t, c)
    ensures Bind(t)
  {
    forall d | d in t.claims
      ensures BindClaim(t, d)
    {
      if d != c {
        assert BindClaim(s, d) && CoreClaim(s, d) && CoreClaim(t, d);
        forall n | n in Ever(s.claims[d].obj.hist)
          ensures Alive(t, d, n) == Alive(s, d, n)
        {
          assert Pooled(s, n, s.claims[d].pool);
        }
      }
    }
  }

  // A step that only moves a program counter.
  lemma {:induction false} PcBind(s: State, t: State, c: ClaimId, pc: Pc)
    requires Bind(s) && c in s.claims && Core(t) && t == WithPc(s, c, pc)
    requires BindClaim(s, c) ==> CorePc(t, c) && BoundPc(t, c)
    ensures Bind(t)
  {
    assert BindClaim(s, c);
    assert Bound(t, c);
    OneClaimBind(s, t, c);
  }

  lemma {:induction false} NewSandboxBind(s: State, t: State, n: Name, sb: Sandbox)
    requires Bind(s) && n !in s.sandboxes && Core(t)
    requires t == s.(sandboxes := s.sandboxes[n := Tracked([Live(sb)], 0)])
    ensures Bind(t)
  {
    forall c | c in t.claims
      ensures BindClaim(t, c)
    {
      assert BindClaim(s, c) && CoreClaim(s, c) && CoreClaim(t, c);
      forall m | m in Ever(s.claims[c].obj.hist)
        ensures Alive(t, c, m) == Alive(s, c, m)
      {
        assert Pooled(s, m, s.claims[c].pool);
      }
    }
  }

  lemma {:induction false} CacheSandboxBind(s: State, n: Name)
    requires Bind(s) && Enabled(s, CacheSandbox(n)) && Core(Next(s, CacheSandbox(n)))
    ensures Bind(Next(s, CacheSandbox(n)))
  {
    var t := Next(s, CacheSandbox(n));
    forall c | c in t.claims
      ensures BindClaim(t, c)
    {
      assert BindClaim(s, c) && CoreClaim(s, c) && CoreClaim(t, c);
    }
  }

  // Appending a version that records the same sandbox.
  lemma {:induction false} TouchedLocal(s: State, t: State, c: ClaimId, v: ClaimVersion)
    requires Bind(s) && c in s.claims && v.recorded == Current(s, c).recorded
    requires t == WithClaim(s, c, v) && Core(t)
    ensures BindClaim(t, c)
  {
    var h := s.claims[c].obj.hist;
    assert BindClaim(s, c) && CoreClaim(s, c) && CoreClaim(t, c);
    EverAppend(h, v);
    if v.recorded.Some? {
      EverHolds(h, |h| - 1);
    }
    assert forall i | 0 <= i < |h| :: t.claims[c].obj.hist[i] == h[i];
  }

  lemma {:induction false} TouchedBind(s: State, c: ClaimId, v: ClaimVersion)
    requires Bind(s) && c in s.claims && v.recorded == Current(s, c).recorded
    ensures Bind(WithClaim(s, c, v))
  {
    var t := WithClaim(s, c, v);
    TouchedCore(s, c, v);
    TouchedLocal(s, t, c, v);
    OneClaimBind(s, t, c);
  }

  // ----- The reads -----

  // A reference the cache shows as gone, another's, or unadoptable is dead.
  lemma {:induction false} LookedUpIsDead(s: State, c: ClaimId, ver: nat, n: Name)
    requires Core(s) && c in s.claims && n in Ever(s.claims[c].obj.hist)
    ensures !LookedUp(s, c, ver, n).Search?
    ensures LookedUp(s, c, ver, n).Removing? ==> LookedUp(s, c, ver, n) == Removing(n) && !Alive(s, c, n)
  {
    assert CoreClaim(s, c) && Pooled(s, n, s.claims[c].pool) && CoreSandbox(s, n);
    var g, k := s.sandboxes[n].hist, s.sandboxes[n].seen;
    assert Follows(g[k - 1], g[|g| - 1]);
  }

  lemma {:induction false} LookUpLocal(s: State, t: State, c: ClaimId)
    requires Core(s) && Enabled(s, LookUp(c)) && BindClaim(s, c)
    requires t == Next(s, LookUp(c)) && Shape(t) && CorePc(t, c)
    ensures BoundPc(t, c)
  {
    var ver := PcOf(s, c).ver;
    var h := s.claims[c].obj.hist;
    if h[ver - 1].recorded.Some? {
      EverHolds(h, ver - 1);
      LookedUpIsDead(s, c, ver, h[ver - 1].recorded.value);
    }
  }

  lemma {:induction false} LookUpBind(s: State, c: ClaimId)
    requires Bind(s) && Enabled(s, LookUp(c)) && Core(Next(s, LookUp(c)))
    ensures Bind(Next(s, LookUp(c)))
  {
    var t := Next(s, LookUp(c));
    assert BindClaim(s, c) && CoreClaim(t, c);
    LookUpLocal(s, t, c);
    PcBind(s, t, c, PcOf(t, c));
  }

  lemma {:induction false} ResolveLocal(s: State, t: State, c: ClaimId)
    requires Shape(s) && Enabled(s, Resolve(c)) && BindClaim(s, c)
    requires t == Next(s, Resolve(c)) && Shape(t) && CorePc(t, c)
    ensures BoundPc(t, c)
  {
  }

  lemma {:induction false} ResolveBind(s: State, c: ClaimId)
    requires Bind(s) && Enabled(s, Resolve(c)) && Core(Next(s, Resolve(c)))
    ensures Bind(Next(s, Resolve(c)))
  {
    var t := Next(s, Resolve(c));
    assert BindClaim(s, c) && CoreClaim(t, c);
    ResolveLocal(s, t, c);
    PcBind(s, t, c, PcOf(t, c));
  }

  // ----- The writes -----

  // Committing on a base that records nothing, or the same sandbox.
  lemma {:induction false} CommittedBind(s: State, c: ClaimId, n: Name, base: nat)
    requires Bind(s) && c in s.claims && BaseOk(s, c, n, base)
    requires Current(s, c).recorded == None || Current(s, c).recorded == Some(n)
    ensures Bind(Committed(s, c, n, base))
  {
    var t := Committed(s, c, n, base);
    CommittedCore(s, c, n, base);
    assert BindClaim(s, c) && CoreClaim(s, c) && CoreClaim(t, c);
    EverAppend(s.claims[c].obj.hist, ClaimVersion(Some(n), false));
    OneClaimBind(s, t, c);
  }

  // Dropping a reference that is dead, or was none.
  lemma {:induction false} DroppedBind(s: State, t: State, c: ClaimId, pc: Pc)
    requires Bind(s) && Core(t) && c in s.claims && Harmless(s, c)
    requires t == WithPc(WithClaim(s, c, ClaimVersion(None, false)), c, pc)
    requires BoundPc(t, c)
    ensures Bind(t)
  {
    assert BindClaim(s, c) && CoreClaim(t, c);
    EverAppend(s.claims[c].obj.hist, ClaimVersion(None, false));
    OneClaimBind(s, t, c);
  }

  lemma {:induction false} MovedBind(s: State, c: ClaimId, n: Name, base: nat, inner: bool)
    requires Bind(s) && c in s.claims && PcOf(s, c) == Transferring(n, base, inner) && n in s.sandboxes
    requires Last(s.sandboxes[n].hist).Live? && base == |s.sandboxes[n].hist|
    requires Core(Moved(s, c, n))
    ensures Bind(Moved(s, c, n))
  {
    assert BindClaim(s, c) && CoreClaim(s, c) && CorePc(s, c);
    assert Alive(s, c, n) && Current(s, c).recorded == Some(n);
    var v := Live(Last(s.sandboxes[n].hist).sb.(owner := ClaimOwned(c), labelled := false));
    SandboxCommitBind(s, n, v);
    var u, t := WithSandbox(s, n, v), Moved(s, c, n);
    assert BindClaim(u, c) && CoreClaim(t, c);
    OneClaimBind(u, t, c);
  }

  lemma {:induction false} TransferLocal(s: State, t: State, c: ClaimId)
    requires Shape(s) && Enabled(s, Transfer(c)) && BindClaim(s, c)
    requires t == TransferStep(s, c) && t.sandboxes == s.sandboxes && Shape(t) && CorePc(t, c)
    ensures BoundPc(t, c)
  {
  }

  lemma {:induction false} TransferBind(s: State, c: ClaimId)
    requires Bind(s) && Enabled(s, Transfer(c)) && Core(TransferStep(s, c))
    ensures Bind(TransferStep(s, c))
  {
    var pc := PcOf(s, c);
    var o := s.sandboxes[pc.name];
    var t := TransferStep(s, c);
    if Last(o.hist).Live? && pc.base == |o.hist| {
      MovedBind(s, c, pc.name, pc.base, pc.inner);
    } else {
      assert BindClaim(s, c) && CoreClaim(t, c);
      TransferLocal(s, t, c);
      PcBind(s, t, c, PcOf(t, c));
    }
  }

  lemma {:induction false} RemoveBind(s: State, c: ClaimId)
    requires Bind(s) && Enabled(s, Remove(c)) && Harmless(s, c) && Core(Next(s, Remove(c)))
    ensures Bind(Next(s, Remove(c)))
  {
    var t := Next(s, Remove(c));
    assert BindClaim(s, c) && CoreClaim(t, c);
    if Current(s, c).recorded.Some? {
      DroppedBind(s, t, c, Search(|s.claims[c].obj.hist| + 1));
    } else {
      PcBind(s, t, c, PcOf(t, c));
    }
  }

  lemma {:induction false} AssignLocal(s: State, t: State, a: Step, c: ClaimId)
    requires Shape(s) && Enabled(s, a) && (a.Assign? || a.Reread? || a.Reassign?) && a.c == c && BindClaim(s, c)
    requires a.Reread? || !ClaimLock(s, c, PcOf(s, c).ver)
    requires t == ClaimStep(s, a, c) && Shape(t) && CorePc(t, c)
    ensures BoundPc(t, c)
  {
  }

  lemma {:induction false} CommitLocal(s: State, a: Step, c: ClaimId)
    requires Shape(s) && Enabled(s, a) && (a.Assign? || a.Reassign?) && a.c == c && BindClaim(s, c)
    requires ClaimLock(s, c, PcOf(s, c).ver)
    ensures BaseOk(s, c, PcOf(s, c).name, PcOf(s, c).base)
    ensures Current(s, c).recorded == None || Current(s, c).recorded == Some(PcOf(s, c).name)
    ensures ClaimStep(s, a, c) == Committed(s, c, PcOf(s, c).name, PcOf(s, c).base)
  {
  }

  lemma {:induction false} AssignBind(s: State, a: Step, c: ClaimId)
    requires Bind(s) && Enabled(s, a) && (a.Assign? || a.Reread? || a.Reassign?) && a.c == c && Core(ClaimStep(s, a, c))
    ensures Bind(ClaimStep(s, a, c))
  {
    var t := ClaimStep(s, a, c);
    assert BindClaim(s, c) && CoreClaim(t, c);
    if !a.Reread? && ClaimLock(s, c, PcOf(s, c).ver) {
      CommitLocal(s, a, c);
      CommittedBind(s, c, PcOf(s, c).name, PcOf(s, c).base);
    } else {
      AssignLocal(s, t, a, c);
      PcBind(s, t, c, PcOf(t, c));
    }
  }

  lemma {:induction false} ClearLocal(s: State, t: State, a: Step, c: ClaimId)
    requires Shape(s) && Enabled(s, a) && (a.ClearRead? || a.ClearWrite?) && a.c == c && BindClaim(s, c)
    requires t == ClaimStep(s, a, c) && Shape(t) && CorePc(t, c)
    ensures BoundPc(t, c)
    ensures a.ClearWrite? && ClaimLock(s, c, PcOf(s, c).ver) ==> Harmless(s, c)
  {
  }

  lemma {:induction false} ClearBind(s: State, a: Step, c: ClaimId)
    requires Bind(s) && Enabled(s, a) && (a.ClearRead? || a.ClearWrite?) && a.c == c && Core(ClaimStep(s, a, c))
    ensures Bind(ClaimStep(s, a, c))
  {
    var t := ClaimStep(s, a, c);
    assert BindClaim(s, c) && CoreClaim(t, c);
    ClearLocal(s, t, a, c);
    var pc := PcOf(s, c);
    if a.ClearWrite? && ClaimLock(s, c, pc.ver) {
      DroppedBind(s, t, c, Ended(Cleared(pc.name)));
    } else {
      PcBind(s, t, c, PcOf(t, c));
    }
  }

  lemma {:induction false} SandboxStepBind(s: State, a: Step)
    requires Bind(s) && Enabled(s, a)
    requires a.SandboxTouched? || a.SandboxDoomed? || a.SandboxGone? || a.PoolTakes?
    ensures Bind(Next(s, a))
  {
    var n := a.name;
    assert CoreSandbox(s, n);
    var h := s.sandboxes[n].hist;
    assert Follows(h[|h| - 1], h[|h| - 1]);
    match a
    case SandboxTouched(_) => SandboxCommitBind(s, n, Last(h));
    case SandboxDoomed(_) => SandboxCommitBind(s, n, Live(Last(h).sb.(deleting := true)));
    case SandboxGone(_) => SandboxCommitBind(s, n, Removed);
    case PoolTakes(_, pool, _) => SandboxCommitBind(s, n, Live(Last(h).sb.(owner := PoolOwned(pool))));
  }

  lemma {:induction false} EndLocal(s: State, t: State, a: Step)
    requires a.GiveUp? || a.Finish? || a.Crash?
    requires Shape(s) && Enabled(s, a) && BindClaim(s, a.c)
    requires t == Next(s, a) && Shape(t) && CorePc(t, a.c)
    ensures BoundPc(t, a.c)
  {
  }

  lemma {:induction false} ChoiceLocal(s: State, t: State, a: Step)
    requires a.Pick? || a.ColdCheck? || a.ColdBlind?
    requires Shape(s) && Enabled(s, a) && BindClaim(s, a.c)
    requires t == Next(s, a) && Shape(t) && CorePc(t, a.c)
    ensures BoundPc(t, a.c)
  {
  }

  lemma {:induction false} BeginLocal(s: State, t: State, a: Step)
    requires Shape(s) && Enabled(s, a) && (a.Begin? || a.CacheClaim?) && BindClaim(s, a.c)
    requires t == Next(s, a) && Shape(t) && CorePc(t, a.c)
    ensures BindClaim(t, a.c)
  {
  }

  lemma {:induction false} BeginStepBind(s: State, a: Step)
    requires Bind(s) && Enabled(s, a) && Core(Next(s, a)) && (a.Begin? || a.CacheClaim?)
    ensures Bind(Next(s, a))
  {
    var t := Next(s, a);
    assert BindClaim(s, a.c) && CoreClaim(t, a.c);
    BeginLocal(s, t, a);
    OneClaimBind(s, t, a.c);
  }

  lemma {:induction false} EndStepBind(s: State, a: Step)
    requires Bind(s) && Enabled(s, a) && Core(Next(s, a)) && (a.GiveUp? || a.Finish? || a.Crash?)
    ensures Bind(Next(s, a))
  {
    var t := Next(s, a);
    assert BindClaim(s, a.c) && CoreClaim(t, a.c);
    EndLocal(s, t, a);
    PcBind(s, t, a.c, PcOf(t, a.c));
  }

  lemma {:induction false} ChoiceStepBind(s: State, a: Step)
    requires Bind(s) && Enabled(s, a) && Core(Next(s, a)) && (a.Pick? || a.ColdCheck? || a.ColdBlind?)
    ensures Bind(Next(s, a))
  {
    var t := Next(s, a);
    assert BindClaim(s, a.c) && CoreClaim(t, a.c);
    ChoiceLocal(s, t, a);
    PcBind(s, t, a.c, PcOf(t, a.c));
  }

  lemma {:induction false} CreationBind(s: State, a: Step)
    requires Bind(s) && Enabled(s, a) && (a.SandboxNew? || a.ClaimNew? || a.ColdCreate?) && Core(Next(s, a))
    ensures Bind(Next(s, a))
  {
    var t := Next(s, a);
    match a
    case SandboxNew(n, sb) => NewSandboxBind(s, t, n, sb);
    case ClaimNew(c, _) =>
      assert Ever(t.claims[c].obj.hist) == {};
      assert CoreClaim(t, c);
      OneClaimBind(s, t, c);
    case ColdCreate(c, n) =>
      var sb := Sandbox(ClaimOwned(c), false, false, true);
      var u := s.(sandboxes := s.sandboxes[n := Tracked([Live(sb)], 0)]);
      NewSandboxCore(s, u, n, sb);
      NewSandboxBind(s, u, n, sb);
      assert BindClaim(u, c) && CoreClaim(u, c) && CoreClaim(t, c);
      PcBind(u, t, c, Ended(Failed));
  }

  // The steps of the world around the passes.
  predicate Outside(a: Step) {
    || a.SandboxNew? || a.SandboxTouched? || a.SandboxDoomed? || a.SandboxGone? || a.PoolTakes? || a.CacheSandbox?
    || a.ClaimNew? || a.ClaimTouched? || a.ClaimGone? || a.ColdCreate?
  }

  lemma {:induction false} OutsideStepBind(s: State, a: Step)
    requires Bind(s) && Enabled(s, a) && Core(Next(s, a)) && Outside(a)
    ensures Bind(Next(s, a))
  {
    match a
    case ClaimTouched(c) => TouchedBind(s, c, Current(s, c));
    case ClaimGone(c) => TouchedBind(s, c, Current(s, c).(gone := true));
    case CacheSandbox(n) => CacheSandboxBind(s, n);
    case SandboxNew(_, _) => CreationBind(s, a);
    case ClaimNew(_, _) => CreationBind(s, a);
    case ColdCreate(_, _) => CreationBind(s, a);
    case SandboxTouched(_) => SandboxStepBind(s, a);
    case SandboxDoomed(_) => SandboxStepBind(s, a);
    case SandboxGone(_) => SandboxStepBind(s, a);
    case PoolTakes(_, _, _) => SandboxStepBind(s, a);
  }

  // The steps that read or write the claim's record.
  predicate OnRecord(a: Step) {
    a.Remove? || a.Assign? || a.Reread? || a.Reassign? || a.ClearRead? || a.ClearWrite?
  }

  lemma {:induction false} RecordStepBind(s: State, a: Step)
    requires Bind(s) && Enabled(s, a) && Core(Next(s, a)) && OnRecord(a) && (a.Remove? ==> Harmless(s, a.c))
    ensures Bind(Next(s, a))
  {
    match a
    case Remove(c) => RemoveBind(s, c);
    case Assign(c) => AssignBind(s, a, c);
    case Reread(c) => AssignBind(s, a, c);
    case Reassign(c) => AssignBind(s, a, c);
    case ClearRead(c) => ClearBind(s, a, c);
    case ClearWrite(c) => ClearBind(s, a, c);
  }

  lemma {:induction false} PassStepBind(s: State, a: Step)
    requires Bind(s) && Enabled(s, a) && Core(Next(s, a)) && !Outside(a) && !OnRecord(a)
    ensures Bind(Next(s, a))
  {
    match a
    case LookUp(c) => LookUpBind(s, c);
    case Transfer(c) => TransferBind(s, c);
    case Resolve(c) => ResolveBind(s, c);
    case Begin(_) => BeginStepBind(s, a);
    case CacheClaim(_) => BeginStepBind(s, a);
    case Pick(_, _) => ChoiceStepBind(s, a);
    case ColdCheck(_) => ChoiceStepBind(s, a);
    case ColdBlind(_) => ChoiceStepBind(s, a);
    case _ => EndStepBind(s, a);
  }

  lemma {:induction false} StepBind(s: State, a: Step)
    requires Bind(s) && Enabled(s, a) && (a.Remove? ==> Harmless(s, a.c))
    ensures Bind(Next(s, a))
  {
    StepCore(s, a);
    if Outside(a) {
      OutsideStepBind(s, a);
    } else if OnRecord(a) {
      RecordStepBind(s, a);
    } else {
      PassStepBind(s, a);
    }
  }
}
