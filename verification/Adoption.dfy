/** The adoption protocol of the SandboxClaim controller: many claims, passes
    serialized per claim, stale caches, and a crash between any two writes.

    Every object of the API server is its history of versions; a version
    number is a position in it, so an optimistic lock holds when the version
    read is the last one. A cache shows, per object, some version, and only
    moves forward. Names are not reused, a claim's warm pool reference is
    fixed, and assignments, owners and pool labels are edited by the
    controllers only. */
module Adoption {
  import opened Common

  type Name = string
  type ClaimId = string
  type PoolName = string

  datatype Owner = Unowned | PoolOwned(pool: PoolName) | ClaimOwned(claim: ClaimId)

  // labelled: carries the warm pool and template hash labels. cold: created
  // for its claim rather than adopted from a pool.
  datatype Sandbox = Sandbox(owner: Owner, deleting: bool, labelled: bool, cold: bool)

  datatype SandboxVersion = Live(sb: Sandbox) | Removed

  // A claim's version: the sandbox recorded as assigned. A deleted claim
  // keeps the last value, which nothing changes any more.
  datatype ClaimVersion = ClaimVersion(recorded: Option<Name>, gone: bool)

  // An object with all its versions; seen is how many the cache has seen.
  datatype Tracked<V> = Tracked(hist: seq<V>, seen: nat)

  // Failed stands for every end without an adoption: an error, or a cold start.
  datatype Outcome = Adopted(name: Name) | Cleared(name: Name) | Failed

  /** Where a claim's pass stands. ver is the version of the claim held in
      memory; base the version of the sandbox a transfer is computed from. */
  datatype Pc =
    | Idle
    | Look(ver: nat)
    | Removing(name: Name)
    | Search(ver: nat)
    | Assigning(ver: nat, name: Name, base: nat)
    | Rereading(name: Name, base: nat)
    | Reassigning(ver: nat, name: Name, base: nat)
    | Transferring(name: Name, base: nat, inner: bool)
    | Resolving(name: Name)
    | Clearing(name: Name)
    | ClearWriting(ver: nat, name: Name)
    | Creating(checked: bool)
    | Ended(outcome: Outcome)

  // committed: the assignment this pass committed. moved: the sandbox it transferred.
  datatype Pass = Pass(pc: Pc, committed: Option<Name>, moved: Option<Name>)

  datatype Claim = Claim(pool: PoolName, obj: Tracked<ClaimVersion>, pass: Pass)

  datatype State = State(sandboxes: map<Name, Tracked<SandboxVersion>>, claims: map<ClaimId, Claim>)

  datatype Step =
    | SandboxNew(name: Name, sb: Sandbox)
    | SandboxTouched(name: Name)
    | SandboxDoomed(name: Name)
    | SandboxGone(name: Name)
    | PoolTakes(name: Name, pool: PoolName, base: nat)
    | ClaimNew(c: ClaimId, pool: PoolName)
    | ClaimTouched(c: ClaimId)
    | ClaimGone(c: ClaimId)
    | CacheSandbox(name: Name)
    | CacheClaim(c: ClaimId)
    | Begin(c: ClaimId)
    | LookUp(c: ClaimId)
    | Remove(c: ClaimId)
    | Pick(c: ClaimId, name: Name)
    | Assign(c: ClaimId)
    | Reread(c: ClaimId)
    | Reassign(c: ClaimId)
    | Transfer(c: ClaimId)
    | Resolve(c: ClaimId)
    | ClearRead(c: ClaimId)
    | ClearWrite(c: ClaimId)
    | ColdCheck(c: ClaimId)
    | ColdBlind(c: ClaimId)
    | ColdCreate(c: ClaimId, name: Name)
    | GiveUp(c: ClaimId)
    | Finish(c: ClaimId)
    | Crash(c: ClaimId)

  function Last<V>(s: seq<V>): V
    requires s != []
  {
    s[|s| - 1]
  }

  function Append<V>(o: Tracked<V>, v: V): Tracked<V> {
    o.(hist := o.hist + [v])
  }

  // The sandbox is recorded as available to a claim on the given pool.
  predicate Adoptable(sb: Sandbox, pool: PoolName) {
    !sb.deleting && sb.labelled && sb.owner == PoolOwned(pool)
  }

  // What the cache shows of a sandbox, or none if it does not know it.
  function Cached(o: Tracked<SandboxVersion>): Option<Sandbox>
    requires o.seen <= |o.hist|
  {
    if o.seen == 0 then None
    else match o.hist[o.seen - 1]
      case Live(sb) => Some(sb)
      case Removed => None
  }

  function Known(s: State, name: Name): Option<Sandbox>
    requires name in s.sandboxes ==> s.sandboxes[name].seen <= |s.sandboxes[name].hist|
  {
    if name in s.sandboxes then Cached(s.sandboxes[name]) else None
  }

  ghost predicate Shape(s: State) {
    && (forall n | n in s.sandboxes :: s.sandboxes[n].hist != [] && s.sandboxes[n].seen <= |s.sandboxes[n].hist|)
    && (forall c | c in s.claims :: s.claims[c].obj.hist != [] && s.claims[c].obj.seen <= |s.claims[c].obj.hist|)
  }

  function Current(s: State, c: ClaimId): ClaimVersion
    requires c in s.claims && s.claims[c].obj.hist != []
  {
    Last(s.claims[c].obj.hist)
  }

  // The live sandbox on the server, or none.
  function Server(s: State, n: Name): Option<Sandbox>
    requires n in s.sandboxes ==> s.sandboxes[n].hist != []
  {
    if n !in s.sandboxes then None
    else match Last(s.sandboxes[n].hist)
      case Live(sb) => Some(sb)
      case Removed => None
  }

  function WithPc(s: State, c: ClaimId, pc: Pc): State
    requires c in s.claims
  {
    s.(claims := s.claims[c := s.claims[c].(pass := s.claims[c].pass.(pc := pc))])
  }

  function WithSandbox(s: State, n: Name, v: SandboxVersion): State
    requires n in s.sandboxes
  {
    s.(sandboxes := s.sandboxes[n := Append(s.sandboxes[n], v)])
  }

  function WithClaim(s: State, c: ClaimId, v: ClaimVersion): State
    requires c in s.claims
  {
    s.(claims := s.claims[c := s.claims[c].(obj := Append(s.claims[c].obj, v))])
  }

  function PcOf(s: State, c: ClaimId): Pc
    requires c in s.claims
  {
    s.claims[c].pass.pc
  }

  /** What a pass does with the sandbox its claim refers to, as the cache
      shows it. */
  function LookedUp(s: State, c: ClaimId, ver: nat, name: Name): Pc
    requires Shape(s) && c in s.claims
  {
    match Known(s, name)
    case None => Removing(name)
    case Some(sb) =>
      match sb.owner
      case ClaimOwned(d) => if d == c then Ended(Adopted(name)) else Removing(name)
      case PoolOwned(_) =>
        if Adoptable(sb, s.claims[c].pool) then Transferring(name, s.sandboxes[name].seen, false)
        else Removing(name)
      case Unowned => Search(ver)
  }

  // Recording the assignment under the claim's lock.
  function Committed(s: State, c: ClaimId, name: Name, base: nat): State
    requires c in s.claims
  {
    var t := WithClaim(s, c, ClaimVersion(Some(name), false));
    t.(claims := t.claims[c := t.claims[c].(pass := Pass(Transferring(name, base, false), Some(name), t.claims[c].pass.moved))])
  }

  // The transfer of the controller reference to the claim.
  function Moved(s: State, c: ClaimId, name: Name): State
    requires c in s.claims && name in s.sandboxes && s.sandboxes[name].hist != [] && Last(s.sandboxes[name].hist).Live?
  {
    var sb := Last(s.sandboxes[name].hist).sb;
    var t := WithSandbox(s, name, Live(sb.(owner := ClaimOwned(c), labelled := false)));
    t.(claims := t.claims[c := t.claims[c].(pass := Pass(Ended(Adopted(name)), t.claims[c].pass.committed, Some(name)))])
  }

  // The fresh read that resolves a refused transfer.
  function Resolved(s: State, c: ClaimId, name: Name): Pc
    requires Shape(s) && c in s.claims
  {
    match Server(s, name)
    case None => Clearing(name)
    case Some(sb) =>
      if sb.owner == ClaimOwned(c) then Ended(Adopted(name))
      else if Adoptable(sb, s.claims[c].pool) then Transferring(name, |s.sandboxes[name].hist|, true)
      else Clearing(name)
  }

  ghost predicate Enabled(s: State, a: Step)
    requires Shape(s)
  {
    match a
    case SandboxNew(n, sb) => n !in s.sandboxes && !sb.deleting && !sb.cold && !sb.owner.ClaimOwned?
    case SandboxTouched(n) => Server(s, n).Some?
    case SandboxDoomed(n) => Server(s, n).Some?
    case SandboxGone(n) => Server(s, n).Some?
    case PoolTakes(n, _, base) =>
      && n in s.sandboxes && base == |s.sandboxes[n].hist|
      && Last(s.sandboxes[n].hist).Live? && !Last(s.sandboxes[n].hist).sb.deleting
      && Last(s.sandboxes[n].hist).sb.owner.Unowned?
    case ClaimNew(c, _) => c !in s.claims
    case ClaimTouched(c) => c in s.claims && !Current(s, c).gone
    case ClaimGone(c) => c in s.claims && !Current(s, c).gone
    case CacheSandbox(n) => n in s.sandboxes && s.sandboxes[n].seen < |s.sandboxes[n].hist|
    case CacheClaim(c) => c in s.claims && s.claims[c].obj.seen < |s.claims[c].obj.hist|
    case Begin(c) =>
      && c in s.claims && PcOf(s, c).Idle? && s.claims[c].obj.seen > 0
      && !s.claims[c].obj.hist[s.claims[c].obj.seen - 1].gone
    case LookUp(c) => c in s.claims && PcOf(s, c).Look? && 0 < PcOf(s, c).ver <= |s.claims[c].obj.hist|
    case Remove(c) => c in s.claims && PcOf(s, c).Removing? && !Current(s, c).gone
    case Pick(c, n) =>
      && c in s.claims && PcOf(s, c).Search?
      && Known(s, n).Some? && Adoptable(Known(s, n).value, s.claims[c].pool)
    case Assign(c) => c in s.claims && PcOf(s, c).Assigning?
    case Reread(c) => c in s.claims && PcOf(s, c).Rereading?
    case Reassign(c) => c in s.claims && PcOf(s, c).Reassigning?
    case Transfer(c) => c in s.claims && PcOf(s, c).Transferring? && PcOf(s, c).name in s.sandboxes
    case Resolve(c) => c in s.claims && PcOf(s, c).Resolving?
    case ClearRead(c) => c in s.claims && PcOf(s, c).Clearing?
    case ClearWrite(c) => c in s.claims && PcOf(s, c).ClearWriting?
    case ColdCheck(c) => c in s.claims && PcOf(s, c).Search?
    case ColdBlind(c) => c in s.claims && PcOf(s, c).Search?
    case ColdCreate(c, n) => c in s.claims && PcOf(s, c).Creating? && n !in s.sandboxes
    case GiveUp(c) => c in s.claims && !PcOf(s, c).Idle? && !PcOf(s, c).Ended?
    case Finish(c) => c in s.claims && PcOf(s, c).Ended?
    case Crash(c) => c in s.claims
  }

  // The lock on a claim: the version held is the last one, and it is not gone.
  predicate ClaimLock(s: State, c: ClaimId, ver: nat)
    requires c in s.claims && s.claims[c].obj.hist != []
  {
    ver == |s.claims[c].obj.hist| && !Current(s, c).gone
  }

  function ClaimStep(s: State, a: Step, c: ClaimId): State
    requires Shape(s) && Enabled(s, a)
    requires c in s.claims && (a.Remove? || a.Assign? || a.Reread? || a.Reassign? || a.ClearRead? || a.ClearWrite?) && a.c == c
  {
    var now := Current(s, c);
    var pc := PcOf(s, c);
    match a
    case Remove(_) =>
      // a merge patch that removes the annotation, whatever it says
      if now.recorded.None? then WithPc(s, c, Search(|s.claims[c].obj.hist|))
      else WithPc(WithClaim(s, c, ClaimVersion(None, false)), c, Search(|s.claims[c].obj.hist| + 1))
    case Assign(_) =>
      if ClaimLock(s, c, pc.ver) then Committed(s, c, pc.name, pc.base)
      else if now.gone then WithPc(s, c, Ended(Failed))
      else WithPc(s, c, Rereading(pc.name, pc.base))
    case Reread(_) =>
      if now.gone || (now.recorded.Some? && now.recorded.value != pc.name) then WithPc(s, c, Ended(Failed))
      else WithPc(s, c, Reassigning(|s.claims[c].obj.hist|, pc.name, pc.base))
    case Reassign(_) =>
      if ClaimLock(s, c, pc.ver) then Committed(s, c, pc.name, pc.base)
      else WithPc(s, c, Rereading(pc.name, pc.base))
    case ClearRead(_) =>
      if now.gone || now.recorded != Some(pc.name) then WithPc(s, c, Ended(Cleared(pc.name)))
      else WithPc(s, c, ClearWriting(|s.claims[c].obj.hist|, pc.name))
    case ClearWrite(_) =>
      if ClaimLock(s, c, pc.ver) then
        WithPc(WithClaim(s, c, ClaimVersion(None, false)), c, Ended(Cleared(pc.name)))
      else WithPc(s, c, Clearing(pc.name))
  }

  function TransferStep(s: State, c: ClaimId): State
    requires Shape(s) && Enabled(s, Transfer(c))
  {
    var pc := PcOf(s, c);
    var o := s.sandboxes[pc.name];
    if Last(o.hist).Removed? then
      WithPc(s, c, if pc.inner then Clearing(pc.name) else Resolving(pc.name))
    else if pc.base == |o.hist| then Moved(s, c, pc.name)
    else WithPc(s, c, Resolving(pc.name))
  }

  function Next(s: State, a: Step): State
    requires Shape(s) && Enabled(s, a)
  {
    match a
    case SandboxNew(n, sb) => s.(sandboxes := s.sandboxes[n := Tracked([Live(sb)], 0)])
    case SandboxTouched(n) => WithSandbox(s, n, Last(s.sandboxes[n].hist))
    case SandboxDoomed(n) => WithSandbox(s, n, Live(Server(s, n).value.(deleting := true)))
    case SandboxGone(n) => WithSandbox(s, n, Removed)
    case PoolTakes(n, pool, _) => WithSandbox(s, n, Live(Server(s, n).value.(owner := PoolOwned(pool))))
    case ClaimNew(c, pool) =>
      s.(claims := s.claims[c := Claim(pool, Tracked([ClaimVersion(None, false)], 0), Pass(Idle, None, None))])
    case ClaimTouched(c) => WithClaim(s, c, Current(s, c))
    case ClaimGone(c) => WithClaim(s, c, Current(s, c).(gone := true))
    case CacheSandbox(n) => s.(sandboxes := s.sandboxes[n := s.sandboxes[n].(seen := s.sandboxes[n].seen + 1)])
    case CacheClaim(c) =>
      s.(claims := s.claims[c := s.claims[c].(obj := s.claims[c].obj.(seen := s.claims[c].obj.seen + 1))])
    case Begin(c) =>
      s.(claims := s.claims[c := s.claims[c].(pass := Pass(Look(s.claims[c].obj.seen), None, None))])
    case LookUp(c) =>
      var ver := PcOf(s, c).ver;
      var ref := s.claims[c].obj.hist[ver - 1].recorded;
      WithPc(s, c, if ref.None? then Search(ver) else LookedUp(s, c, ver, ref.value))
    case Pick(c, n) => WithPc(s, c, Assigning(PcOf(s, c).ver, n, s.sandboxes[n].seen))
    case Transfer(c) => TransferStep(s, c)
    case Resolve(c) => WithPc(s, c, Resolved(s, c, PcOf(s, c).name))
    case ColdCheck(c) =>
      // the fresh read before a cold create; an assigned or deleted claim stops here
      WithPc(s, c, if Current(s, c).gone || Current(s, c).recorded.Some? then Ended(Failed) else Creating(true))
    case ColdBlind(c) => WithPc(s, c, Creating(false))
    case ColdCreate(c, n) =>
      WithPc(s.(sandboxes := s.sandboxes[n := Tracked([Live(Sandbox(ClaimOwned(c), false, false, true))], 0)]), c, Ended(Failed))
    case GiveUp(c) => WithPc(s, c, Ended(Failed))
    case Finish(c) => WithPc(s, c, Idle)
    case Crash(c) => WithPc(s, c, Idle)
    case _ => ClaimStep(s, a, a.c)
  }
}
