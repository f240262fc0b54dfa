/** What every run of the adoption protocol keeps. */
module AdoptionSafety {
  import opened Common
  import opened Adoption

  // ----- The life of a sandbox -----

  // A deletion is final, a claim keeps what it owns, and an unadoptable
  // pool sandbox never becomes adoptable.
  ghost predicate Evolves(x: Sandbox, y: Sandbox) {
    && (x.deleting ==> y.deleting && y.owner == x.owner)
    && (x.owner.ClaimOwned? ==> y.owner == x.owner)
    && (x.owner.PoolOwned? ==> y.owner == x.owner || y.owner.ClaimOwned?)
    && (x.owner.PoolOwned? && y.owner == x.owner ==> y.labelled == x.labelled)
    && (x.owner.PoolOwned? && !x.labelled ==> y.owner == x.owner)
    && x.cold == y.cold
  }

  ghost predicate Follows(a: SandboxVersion, b: SandboxVersion) {
    b.Removed? || (a.Live? && b.Live? && Evolves(a.sb, b.sb))
  }

  ghost predicate Ordered(h: seq<SandboxVersion>) {
    forall i, j | 0 <= i <= j < |h| :: Follows(h[i], h[j])
  }

  lemma {:induction false} OrderedAppend(h: seq<SandboxVersion>, v: SandboxVersion)
    requires Ordered(h) && h != [] && Follows(Last(h), v) && Follows(v, v)
    ensures Ordered(h + [v])
  {
    var g := h + [v];
    forall i, j | 0 <= i <= j < |g|
      ensures Follows(g[i], g[j])
    {
      if i < |h| {
        assert Follows(h[i], Last(h));
      }
    }
  }

  // ----- Assignments -----

  // Every sandbox ever recorded on the claim.
  function Ever(h: seq<ClaimVersion>): set<Name> {
    set i | 0 <= i < |h| && h[i].recorded.Some? :: h[i].recorded.value
  }

  lemma {:induction false} EverAppend(h: seq<ClaimVersion>, v: ClaimVersion)
    ensures Ever(h + [v]) == Ever(h) + (if v.recorded.Some? then {v.recorded.value} else {})
  {
    var g := h + [v];
    assert g[|h|] == v;
    forall n | n in Ever(h)
      ensures n in Ever(g)
    {
      var i :| 0 <= i < |h| && h[i].recorded.Some? && h[i].recorded.value == n;
      assert g[i] == h[i];
    }
  }

  lemma {:induction false} EverHolds(h: seq<ClaimVersion>, i: nat)
    requires i < |h| && h[i].recorded.Some?
    ensures h[i].recorded.value in Ever(h)
  {
  }

  // The sandbox is, or could still become, the claim's warm sandbox.
  predicate AliveSb(sb: Sandbox, c: ClaimId, pool: PoolName) {
    !sb.deleting && ((sb.owner == ClaimOwned(c) && !sb.cold) || Adoptable(sb, pool))
  }

  predicate Alive(s: State, c: ClaimId, n: Name)
    requires c in s.claims && (n in s.sandboxes ==> s.sandboxes[n].hist != [])
  {
    Server(s, n).Some? && AliveSb(Server(s, n).value, c, s.claims[c].pool)
  }

  // ----- The core: holds in every run -----

  ghost predicate AdoptableAt(o: Tracked<SandboxVersion>, base: nat, pool: PoolName) {
    0 < base <= |o.hist| && o.hist[base - 1].Live? && Adoptable(o.hist[base - 1].sb, pool)
  }

  // A version read from the cache, on which the sandbox was adoptable.
  ghost predicate BaseOk(s: State, c: ClaimId, n: Name, base: nat)
    requires c in s.claims
  {
    n in s.sandboxes && base <= s.sandboxes[n].seen && AdoptableAt(s.sandboxes[n], base, s.claims[c].pool)
  }

  // The cache has seen the sandbox in the pool's or a claim's hands.
  ghost predicate Pooled(s: State, n: Name, pool: PoolName)
    requires Shape(s)
  {
    n in s.sandboxes && 0 < s.sandboxes[n].seen &&
    var v := s.sandboxes[n].hist[s.sandboxes[n].seen - 1];
    v.Removed? || v.sb.owner == PoolOwned(pool) || v.sb.owner.ClaimOwned?
  }

  ghost predicate CorePc(s: State, c: ClaimId)
    requires Shape(s) && c in s.claims
  {
    var h := s.claims[c].obj.hist;
    match PcOf(s, c)
    case Idle => true
    case Look(ver) => 0 < ver <= |h|
    case Removing(n) => n in Ever(h)
    case Search(ver) => 0 < ver <= |h|
    case Assigning(ver, n, base) => 0 < ver <= |h| && BaseOk(s, c, n, base)
    case Rereading(n, base) => BaseOk(s, c, n, base)
    case Reassigning(ver, n, base) =>
      0 < ver <= |h| && BaseOk(s, c, n, base) && (h[ver - 1].recorded == None || h[ver - 1].recorded == Some(n))
    case Transferring(n, base, _) =>
      n in Ever(h) && n in s.sandboxes && AdoptableAt(s.sandboxes[n], base, s.claims[c].pool)
    case Resolving(n) => n in Ever(h)
    case Clearing(n) => n in Ever(h)
    case ClearWriting(ver, n) => n in Ever(h) && 0 < ver <= |h| && h[ver - 1].recorded == Some(n)
    case Creating(_) => true
    case Ended(Adopted(n)) =>
      n in s.sandboxes && (Server(s, n).Some? ==> Server(s, n).value.owner == ClaimOwned(c))
    case Ended(_) => true
  }

  ghost predicate CoreClaim(s: State, c: ClaimId)
    requires Shape(s) && c in s.claims
  {
    && (forall n | n in Ever(s.claims[c].obj.hist) :: Pooled(s, n, s.claims[c].pool))
    && CorePc(s, c)
  }

  // Written ahead: an adopted sandbox was recorded on its claim.
  ghost predicate WrittenAhead(s: State, sb: Sandbox, n: Name) {
    sb.owner.ClaimOwned? && !sb.cold ==> sb.owner.claim in s.claims && n in Ever(s.claims[sb.owner.claim].obj.hist)
  }

  ghost predicate CoreSandbox(s: State, n: Name)
    requires Shape(s) && n in s.sandboxes
  {
    && Ordered(s.sandboxes[n].hist)
    && (Server(s, n).Some? ==> WrittenAhead(s, Server(s, n).value, n))
    && (Server(s, n).Some? && Server(s, n).value.cold ==> Server(s, n).value.owner.ClaimOwned?)
  }

  ghost predicate Core(s: State) {
    && Shape(s)
    && (forall n | n in s.sandboxes :: CoreSandbox(s, n))
    && (forall c | c in s.claims :: CoreClaim(s, c))
  }

  // ----- Commits on a sandbox -----

  // A new owner claim had it recorded, and found it adoptable.
  ghost predicate Lawful(s: State, n: Name, v: SandboxVersion)
    requires Shape(s) && n in s.sandboxes
  {
    && Follows(Last(s.sandboxes[n].hist), v) && Follows(v, v)
    && (v.Live? && v.sb.owner.ClaimOwned? && Last(s.sandboxes[n].hist).Live?
        && Last(s.sandboxes[n].hist).sb.owner != v.sb.owner ==>
          && WrittenAhead(s, v.sb, n)
          && (v.sb.owner.claim in s.claims ==> Adoptable(Last(s.sandboxes[n].hist).sb, s.claims[v.sb.owner.claim].pool)))
  }

  lemma {:induction false} SandboxCommitClaim(s: State, n: Name, v: SandboxVersion, c: ClaimId)
    requires Core(s) && n in s.sandboxes && Lawful(s, n, v) && c in s.claims
    ensures Shape(WithSandbox(s, n, v)) && CoreClaim(WithSandbox(s, n, v), c)
  {
    var t := WithSandbox(s, n, v);
    var h := s.sandboxes[n].hist;
    assert forall i | 0 <= i < |h| :: t.sandboxes[n].hist[i] == h[i];
    forall m | m in Ever(s.claims[c].obj.hist)
      ensures Pooled(t, m, s.claims[c].pool)
    {
      assert Pooled(s, m, s.claims[c].pool);
    }
    assert CorePc(s, c);
    assert PcOf(t, c) == PcOf(s, c);
  }

  lemma {:induction false} SandboxCommitCore(s: State, n: Name, v: SandboxVersion)
    requires Core(s) && n in s.sandboxes && Lawful(s, n, v)
    ensures Core(WithSandbox(s, n, v))
  {
    var t := WithSandbox(s, n, v);
    assert CoreSandbox(s, n);
    OrderedAppend(s.sandboxes[n].hist, v);
    forall m | m in t.sandboxes
      ensures CoreSandbox(t, m)
    {
      assert CoreSandbox(s, m);
    }
    forall c | c in t.claims
      ensures CoreClaim(t, c)
    {
      SandboxCommitClaim(s, n, v, c);
    }
  }

  // ----- Changes of one claim -----

  lemma {:induction false} ClaimChangeCore(s: State, t: State, c: ClaimId)
    requires Core(s) && t.sandboxes == s.sandboxes
    requires c in t.claims && t.claims == s.claims[c := t.claims[c]]
    requires c in s.claims ==>
      s.claims[c].pool == t.claims[c].pool && Ever(s.claims[c].obj.hist) <= Ever(t.claims[c].obj.hist)
    requires t.claims[c].obj.hist != [] && t.claims[c].obj.seen <= |t.claims[c].obj.hist|
    requires Shape(t) ==> CoreClaim(t, c)
    ensures Core(t)
  {
    forall d | d in t.claims
      ensures CoreClaim(t, d)
    {
      if d != c {
        assert CoreClaim(s, d);
      }
    }
    forall n | n in t.sandboxes
      ensures CoreSandbox(t, n)
    {
      assert CoreSandbox(s, n);
    }
  }

  // A new program counter alone.
  lemma {:induction false} PcCore(s: State, t: State, c: ClaimId, pc: Pc)
    requires Core(s) && c in s.claims && t == WithPc(s, c, pc)
    requires Shape(t) ==> CorePc(t, c)
    ensures Core(t)
  {
    assert CoreClaim(s, c);
    ClaimChangeCore(s, t, c);
  }

  // A new version of the claim, recording nothing new but perhaps a pooled sandbox.
  lemma {:induction false} VersionCore(s: State, t: State, c: ClaimId, v: ClaimVersion, pass: Pass)
    requires Core(s) && c in s.claims
    requires t == s.(claims := s.claims[c := s.claims[c].(obj := Append(s.claims[c].obj, v), pass := pass)])
    requires v.recorded.Some? ==> Pooled(s, v.recorded.value, s.claims[c].pool)
    requires Shape(t) ==> CorePc(t, c)
    ensures Core(t)
    ensures Ever(t.claims[c].obj.hist) == Ever(s.claims[c].obj.hist) + (if v.recorded.Some? then {v.recorded.value} else {})
  {
    assert CoreClaim(s, c);
    EverAppend(s.claims[c].obj.hist, v);
    ClaimChangeCore(s, t, c);
  }

  // The pc survives a version appended by someone else.
  lemma {:induction false} TouchedCore(s: State, c: ClaimId, v: ClaimVersion)
    requires Core(s) && c in s.claims && v.recorded == Current(s, c).recorded
    ensures Core(WithClaim(s, c, v))
  {
    var t := WithClaim(s, c, v);
    var h := s.claims[c].obj.hist;
    assert CoreClaim(s, c) && CorePc(s, c);
    EverAppend(h, v);
    if v.recorded.Some? {
      EverHolds(h, |h| - 1);
    }
    assert forall i | 0 <= i < |h| :: t.claims[c].obj.hist[i] == h[i];
    VersionCore(s, t, c, v, s.claims[c].pass);
  }

  // A base the cache has shown means the cache has seen it pooled.
  lemma {:induction false} BaseIsPooled(s: State, c: ClaimId, n: Name, base: nat)
    requires Core(s) && c in s.claims && BaseOk(s, c, n, base)
    ensures Pooled(s, n, s.claims[c].pool)
  {
    assert CoreSandbox(s, n);
    var h := s.sandboxes[n].hist;
    assert Follows(h[base - 1], h[s.sandboxes[n].seen - 1]);
  }

  lemma {:induction false} CommittedCore(s: State, c: ClaimId, n: Name, base: nat)
    requires Core(s) && c in s.claims && BaseOk(s, c, n, base)
    ensures Core(Committed(s, c, n, base))
  {
    BaseIsPooled(s, c, n, base);
    var t := Committed(s, c, n, base);
    var v := ClaimVersion(Some(n), false);
    EverAppend(s.claims[c].obj.hist, v);
    VersionCore(s, t, c, v, Pass(Transferring(n, base, false), Some(n), s.claims[c].pass.moved));
  }

  // ----- The core over the steps -----

  lemma {:induction false} NewSandboxCore(s: State, t: State, n: Name, sb: Sandbox)
    requires Core(s) && n !in s.sandboxes && (sb.owner.ClaimOwned? <==> sb.cold)
    requires t == s.(sandboxes := s.sandboxes[n := Tracked([Live(sb)], 0)])
    ensures Core(t)
  {
    forall m | m in t.sandboxes
      ensures CoreSandbox(t, m)
    {
      if m != n {
        assert CoreSandbox(s, m);
      }
    }
    forall c | c in t.claims
      ensures CoreClaim(t, c)
    {
      assert CoreClaim(s, c) && CorePc(s, c);
      forall m | m in Ever(s.claims[c].obj.hist)
        ensures Pooled(t, m, s.claims[c].pool)
      {
        assert Pooled(s, m, s.claims[c].pool);
      }
      assert PcOf(t, c) == PcOf(s, c);
    }
  }

  lemma {:induction false} CacheSandboxCore(s: State, n: Name)
    requires Core(s) && Enabled(s, CacheSandbox(n))
    ensures Core(Next(s, CacheSandbox(n)))
  {
    var t := Next(s, CacheSandbox(n));
    assert CoreSandbox(s, n);
    var h, k := s.sandboxes[n].hist, s.sandboxes[n].seen;
    assert k > 0 ==> Follows(h[k - 1], h[k]);
    forall m | m in t.sandboxes
      ensures CoreSandbox(t, m)
    {
      assert CoreSandbox(s, m);
    }
    forall c | c in t.claims
      ensures CoreClaim(t, c)
    {
      assert CoreClaim(s, c) && CorePc(s, c);
      forall m | m in Ever(s.claims[c].obj.hist)
        ensures Pooled(t, m, s.claims[c].pool)
      {
        assert Pooled(s, m, s.claims[c].pool);
      }
      assert PcOf(t, c) == PcOf(s, c);
    }
  }

  lemma {:induction false} LookUpCore(s: State, c: ClaimId)
    requires Core(s) && Enabled(s, LookUp(c))
    ensures Core(Next(s, LookUp(c)))
  {
    assert CoreClaim(s, c);
    var ver := PcOf(s, c).ver;
    var h := s.claims[c].obj.hist;
    if h[ver - 1].recorded.Some? {
      EverHolds(h, ver - 1);
      var n := h[ver - 1].recorded.value;
      if n in s.sandboxes {
        assert CoreSandbox(s, n);
        var g, k := s.sandboxes[n].hist, s.sandboxes[n].seen;
        assert k > 0 ==> Follows(g[k - 1], g[|g| - 1]);
      }
    }
    PcCore(s, Next(s, LookUp(c)), c, PcOf(Next(s, LookUp(c)), c));
  }

  lemma {:induction false} MovedCore(s: State, c: ClaimId, n: Name)
    requires Core(s) && c in s.claims && CorePc(s, c) && PcOf(s, c).Transferring? && PcOf(s, c).name == n
    requires n in s.sandboxes && Last(s.sandboxes[n].hist).Live? && PcOf(s, c).base == |s.sandboxes[n].hist|
    ensures Core(Moved(s, c, n))
  {
    assert CoreClaim(s, c);
    var v := Live(Last(s.sandboxes[n].hist).sb.(owner := ClaimOwned(c), labelled := false));
    SandboxCommitCore(s, n, v);
    var u := WithSandbox(s, n, v);
    assert CoreClaim(u, c);
    ClaimChangeCore(u, Moved(s, c, n), c);
  }

  lemma {:induction false} TransferCore(s: State, c: ClaimId)
    requires Core(s) && Enabled(s, Transfer(c))
    ensures Core(TransferStep(s, c))
  {
    assert CoreClaim(s, c) && CorePc(s, c);
    var pc := PcOf(s, c);
    var o := s.sandboxes[pc.name];
    if Last(o.hist).Live? && pc.base == |o.hist| {
      MovedCore(s, c, pc.name);
    } else {
      var t := TransferStep(s, c);
      PcCore(s, t, c, PcOf(t, c));
    }
  }

  lemma {:induction false} ResolveCore(s: State, c: ClaimId)
    requires Core(s) && Enabled(s, Resolve(c))
    ensures Core(Next(s, Resolve(c)))
  {
    assert CoreClaim(s, c) && CorePc(s, c);
    assert Pooled(s, PcOf(s, c).name, s.claims[c].pool);
    PcCore(s, Next(s, Resolve(c)), c, Resolved(s, c, PcOf(s, c).name));
  }

  lemma {:induction false} RemoveCore(s: State, c: ClaimId)
    requires Core(s) && Enabled(s, Remove(c))
    ensures Core(ClaimStep(s, Remove(c), c))
  {
    assert CoreClaim(s, c);
    var t := ClaimStep(s, Remove(c), c);
    if Current(s, c).recorded.Some? {
      VersionCore(s, t, c, ClaimVersion(None, false), s.claims[c].pass.(pc := Search(|s.claims[c].obj.hist| + 1)));
    } else {
      PcCore(s, t, c, PcOf(t, c));
    }
  }

  lemma {:induction false} AssignCore(s: State, a: Step, c: ClaimId)
    requires Core(s) && Enabled(s, a) && (a.Assign? || a.Reassign?) && a.c == c
    ensures Core(ClaimStep(s, a, c))
  {
    assert CoreClaim(s, c) && CorePc(s, c);
    var t := ClaimStep(s, a, c);
    var pc := PcOf(s, c);
    if ClaimLock(s, c, pc.ver) {
      CommittedCore(s, c, pc.name, pc.base);
    } else {
      PcCore(s, t, c, PcOf(t, c));
    }
  }

  lemma {:induction false} RereadCore(s: State, c: ClaimId)
    requires Core(s) && Enabled(s, Reread(c))
    ensures Core(ClaimStep(s, Reread(c), c))
  {
    assert CoreClaim(s, c) && CorePc(s, c);
    var t := ClaimStep(s, Reread(c), c);
    PcCore(s, t, c, PcOf(t, c));
  }

  lemma {:induction false} ClearCore(s: State, a: Step, c: ClaimId)
    requires Core(s) && Enabled(s, a) && (a.ClearRead? || a.ClearWrite?) && a.c == c
    ensures Core(ClaimStep(s, a, c))
  {
    assert CoreClaim(s, c) && CorePc(s, c);
    var t := ClaimStep(s, a, c);
    var pc := PcOf(s, c);
    if a.ClearWrite? && ClaimLock(s, c, pc.ver) {
      VersionCore(s, t, c, ClaimVersion(None, false), s.claims[c].pass.(pc := Ended(Cleared(pc.name))));
    } else {
      PcCore(s, t, c, PcOf(t, c));
    }
  }

  lemma {:induction false} SandboxStepCore(s: State, a: Step)
    requires Core(s) && Enabled(s, a)
    requires a.SandboxTouched? || a.SandboxDoomed? || a.SandboxGone? || a.PoolTakes?
    ensures Core(Next(s, a))
  {
    var n := a.name;
    assert CoreSandbox(s, n);
    var h := s.sandboxes[n].hist;
    assert Follows(h[|h| - 1], h[|h| - 1]);
    match a
    case SandboxTouched(_) => SandboxCommitCore(s, n, Last(h));
    case SandboxDoomed(_) => SandboxCommitCore(s, n, Live(Last(h).sb.(deleting := true)));
    case SandboxGone(_) => SandboxCommitCore(s, n, Removed);
    case PoolTakes(_, pool, _) => SandboxCommitCore(s, n, Live(Last(h).sb.(owner := PoolOwned(pool))));
  }

  lemma {:induction false} BeginCore(s: State, a: Step)
    requires Core(s) && Enabled(s, a) && (a.Begin? || a.CacheClaim?)
    ensures Core(Next(s, a))
  {
    assert CoreClaim(s, a.c);
    ClaimChangeCore(s, Next(s, a), a.c);
  }

  lemma {:induction false} OwnStepCore(s: State, a: Step)
    requires Core(s) && Enabled(s, a)
    requires a.Pick? || a.ColdCheck? || a.ColdBlind? || a.GiveUp? || a.Finish? || a.Crash?
    ensures Core(Next(s, a))
  {
    assert CoreClaim(s, a.c) && CorePc(s, a.c);
    PcCore(s, Next(s, a), a.c, PcOf(Next(s, a), a.c));
  }

  lemma {:induction false} StepCore(s: State, a: Step)
    requires Core(s) && Enabled(s, a)
    ensures Core(Next(s, a))
  {
    match a
    case SandboxNew(n, sb) => NewSandboxCore(s, Next(s, a), n, sb);
    case ClaimNew(c, _) =>
      var t := Next(s, a);
      assert Ever(t.claims[c].obj.hist) == {};
      ClaimChangeCore(s, t, c);
    case ClaimTouched(c) => TouchedCore(s, c, Current(s, c));
    case ClaimGone(c) => TouchedCore(s, c, Current(s, c).(gone := true));
    case CacheSandbox(n) => CacheSandboxCore(s, n);
    case LookUp(c) => LookUpCore(s, c);
    case Transfer(c) => TransferCore(s, c);
    case Resolve(c) => ResolveCore(s, c);
    case ColdCreate(c, n) =>
      var sb := Sandbox(ClaimOwned(c), false, false, true);
      var u := s.(sandboxes := s.sandboxes[n := Tracked([Live(sb)], 0)]);
      NewSandboxCore(s, u, n, sb);
      PcCore(u, Next(s, a), c, Ended(Failed));
    case SandboxTouched(_) => SandboxStepCore(s, a);
    case SandboxDoomed(_) => SandboxStepCore(s, a);
    case SandboxGone(_) => SandboxStepCore(s, a);
    case PoolTakes(_, _, _) => SandboxStepCore(s, a);
    case Remove(c) => RemoveCore(s, c);
    case Assign(c) => AssignCore(s, a, c);
    case Reassign(c) => AssignCore(s, a, c);
    case Reread(c) => RereadCore(s, c);
    case ClearRead(c) => ClearCore(s, a, c);
    case ClearWrite(c) => ClearCore(s, a, c);
    case Begin(_) => BeginCore(s, a);
    case CacheClaim(_) => BeginCore(s, a);
    case _ => OwnStepCore(s, a);
  }
}
