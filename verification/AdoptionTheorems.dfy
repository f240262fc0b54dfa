/** The results about warm-sandbox adoption, over whole runs. */
module AdoptionTheorems {
  import opened Common
  import opened Adoption
  import opened AdoptionSafety
  import opened AdoptionBinding
  import opened AdoptionPass

  ghost predicate Takes(s: State, a: Step, t: State) {
    Shape(s) && Enabled(s, a) && t == Next(s, a)
  }

  // A controller starts: sandboxes and claims are there, nothing is assigned.
  ghost predicate Init(s: State) {
    && Shape(s)
    && (forall n | n in s.sandboxes ::
          && |s.sandboxes[n].hist| == 1 && s.sandboxes[n].hist[0].Live?
          && !s.sandboxes[n].hist[0].sb.owner.ClaimOwned? && !s.sandboxes[n].hist[0].sb.cold)
    && (forall c | c in s.claims ::
          |s.claims[c].obj.hist| == 1 && s.claims[c].obj.hist[0].recorded.None? && s.claims[c].pass == Pass(Idle, None, None))
  }

  lemma {:induction false} InitBinds(s: State)
    requires Init(s)
    ensures Bind(s)
  {
    forall n | n in s.sandboxes
      ensures CoreSandbox(s, n)
    {
    }
    forall c | c in s.claims
      ensures CoreClaim(s, c) && BindClaim(s, c)
    {
      assert Ever(s.claims[c].obj.hist) == {};
    }
  }

  ghost predicate IsRun(states: seq<State>, steps: seq<Step>) {
    && |states| == |steps| + 1
    && Init(states[0])
    && forall i | 0 <= i < |steps| :: Takes(states[i], steps[i], states[i + 1])
  }

  // No reference removal of the run hits a live assignment.
  ghost predicate Careful(states: seq<State>, steps: seq<Step>)
    requires IsRun(states, steps)
  {
    forall i | 0 <= i < |steps| && steps[i].Remove? ::
      Takes(states[i], steps[i], states[i + 1]) && Harmless(states[i], steps[i].c)
  }

  lemma {:induction false} CoreRun(states: seq<State>, steps: seq<Step>, i: nat)
    requires IsRun(states, steps) && i < |states|
    ensures Core(states[i])
  {
    if i > 0 {
      CoreRun(states, steps, i - 1);
      assert Takes(states[i - 1], steps[i - 1], states[i - 1 + 1]);
      StepCore(states[i - 1], steps[i - 1]);
    } else {
      InitBinds(states[0]);
    }
  }

  lemma {:induction false} BindRun(states: seq<State>, steps: seq<Step>, i: nat)
    requires IsRun(states, steps) && Careful(states, steps) && i < |states|
    ensures Bind(states[i])
  {
    if i > 0 {
      BindRun(states, steps, i - 1);
      assert Takes(states[i - 1], steps[i - 1], states[i - 1 + 1]);
      StepBind(states[i - 1], steps[i - 1]);
    } else {
      InitBinds(states[0]);
    }
  }

  // ----- Ownership is never stolen -----

  // The steps that write a sandbox.
  predicate Writes(a: Step) {
    || a.SandboxNew? || a.SandboxTouched? || a.SandboxDoomed? || a.SandboxGone? || a.PoolTakes?
    || a.Transfer? || a.ColdCreate?
  }

  lemma {:induction false} RecordSteps(s: State, a: Step, n: Name)
    requires Shape(s) && Enabled(s, a) && n in s.sandboxes && OnRecord(a)
    ensures var t := Next(s, a); n in t.sandboxes && t.sandboxes[n].hist == s.sandboxes[n].hist
  {
  }

  lemma {:induction false} QuietSteps(s: State, a: Step, n: Name)
    requires Shape(s) && Enabled(s, a) && n in s.sandboxes && !Writes(a)
    ensures var t := Next(s, a); n in t.sandboxes && t.sandboxes[n].hist == s.sandboxes[n].hist
  {
    if OnRecord(a) {
      RecordSteps(s, a, n);
    }
  }

  lemma {:induction false} WritingSteps(s: State, a: Step, n: Name)
    requires Shape(s) && Enabled(s, a) && n in s.sandboxes && Writes(a)
    ensures var t := Next(s, a);
      n in t.sandboxes && |s.sandboxes[n].hist| <= |t.sandboxes[n].hist|
      && t.sandboxes[n].hist[..|s.sandboxes[n].hist|] == s.sandboxes[n].hist
  {
  }

  lemma {:induction false} StepGrows(s: State, a: Step, n: Name)
    requires Shape(s) && Enabled(s, a) && n in s.sandboxes
    ensures var t := Next(s, a);
      n in t.sandboxes && |s.sandboxes[n].hist| <= |t.sandboxes[n].hist|
      && t.sandboxes[n].hist[..|s.sandboxes[n].hist|] == s.sandboxes[n].hist
  {
    if Writes(a) {
      WritingSteps(s, a, n);
    } else {
      QuietSteps(s, a, n);
    }
  }

  lemma {:induction false} RunGrows(states: seq<State>, steps: seq<Step>, i: nat, j: nat, n: Name)
    requires IsRun(states, steps) && i <= j < |states| && n in states[i].sandboxes
    ensures n in states[j].sandboxes
    ensures var g, h := states[i].sandboxes[n].hist, states[j].sandboxes[n].hist; |g| <= |h| && h[..|g|] == g
    decreases j
  {
    if i < j {
      RunGrows(states, steps, i, j - 1, n);
      assert Takes(states[j - 1], steps[j - 1], states[j - 1 + 1]);
      StepGrows(states[j - 1], steps[j - 1], n);
    }
  }

  /** Ownership is never stolen. In every run, with any staleness, crashes and
      reference removals, once a sandbox's controller is a claim it stays that
      claim for as long as the sandbox exists. */
  lemma {:induction false} NeverStolen(states: seq<State>, steps: seq<Step>, i: nat, j: nat, n: Name)
    requires IsRun(states, steps) && i <= j < |states|
    requires Shape(states[i]) && Server(states[i], n).Some? && Server(states[i], n).value.owner.ClaimOwned?
    ensures Shape(states[j]) && n in states[j].sandboxes
    ensures Server(states[j], n).Some? ==> Server(states[j], n).value.owner == Server(states[i], n).value.owner
  {
    CoreRun(states, steps, j);
    RunGrows(states, steps, i, j, n);
    assert CoreSandbox(states[j], n);
    var g, h := states[i].sandboxes[n].hist, states[j].sandboxes[n].hist;
    assert h[|g| - 1] == h[..|g|][|g| - 1] == Last(g);
    assert Follows(h[|g| - 1], h[|h| - 1]);
  }

  // ----- One warm sandbox per claim -----

  // A live sandbox adopted from a pool and controlled by the claim.
  ghost predicate Holds(s: State, c: ClaimId, n: Name)
    requires Shape(s)
  {
    Server(s, n).Some? &&
    var sb := Server(s, n).value;
    sb.owner == ClaimOwned(c) && !sb.cold && !sb.deleting
  }

  lemma {:induction false} HeldIsRecorded(s: State, c: ClaimId, n: Name)
    requires Bind(s) && Holds(s, c, n)
    ensures c in s.claims && Current(s, c).recorded == Some(n)
  {
    assert CoreSandbox(s, n) && BindClaim(s, c);
    assert Alive(s, c, n);
  }

  /** One warm sandbox per claim: in every careful run no claim ever controls
      two live adopted sandboxes, and the one it controls is the one recorded
      on it. */
  lemma {:induction false} OneWarmSandbox(states: seq<State>, steps: seq<Step>, i: nat, c: ClaimId, n: Name, m: Name)
    requires IsRun(states, steps) && Careful(states, steps) && i < |states|
    requires Shape(states[i]) && Holds(states[i], c, n) && Holds(states[i], c, m)
    ensures n == m
    ensures c in states[i].claims && Current(states[i], c).recorded == Some(n)
  {
    BindRun(states, steps, i);
    HeldIsRecorded(states[i], c, n);
    HeldIsRecorded(states[i], c, m);
  }

  // A removal computed from the claim's current reference is harmless.
  lemma {:induction false} FreshRemovalIsHarmless(s: State, c: ClaimId)
    requires Bind(s) && Enabled(s, Remove(c))
    requires Current(s, c).recorded in {None, Some(PcOf(s, c).name)}
    ensures Harmless(s, c)
  {
    assert BindClaim(s, c);
  }

  // Every reference removal finds on the server the reference it was computed from, or none.
  ghost predicate FreshRemovals(states: seq<State>, steps: seq<Step>)
    requires IsRun(states, steps)
  {
    forall i | 0 <= i < |steps| && steps[i].Remove? ::
      && Takes(states[i], steps[i], states[i + 1])
      && Current(states[i], steps[i].c).recorded in {None, Some(PcOf(states[i], steps[i].c).name)}
  }

  lemma {:induction false} FreshBindRun(states: seq<State>, steps: seq<Step>, i: nat)
    requires IsRun(states, steps) && FreshRemovals(states, steps) && i < |states|
    ensures Bind(states[i])
  {
    if i > 0 {
      FreshBindRun(states, steps, i - 1);
      assert Takes(states[i - 1], steps[i - 1], states[i - 1 + 1]);
      if steps[i - 1].Remove? {
        FreshRemovalIsHarmless(states[i - 1], steps[i - 1].c);
      }
      StepBind(states[i - 1], steps[i - 1]);
    } else {
      InitBinds(states[0]);
    }
  }

  /** A run whose removals never act on a stale claim is careful, so all that
      holds of careful runs holds of it. */
  lemma {:induction false} FreshIsCareful(states: seq<State>, steps: seq<Step>)
    requires IsRun(states, steps) && FreshRemovals(states, steps)
    ensures Careful(states, steps)
  {
    forall i | 0 <= i < |steps| && steps[i].Remove?
      ensures Takes(states[i], steps[i], states[i + 1]) && Harmless(states[i], steps[i].c)
    {
      assert Takes(states[i], steps[i], states[i + 1]);
      FreshBindRun(states, steps, i);
      FreshRemovalIsHarmless(states[i], steps[i].c);
    }
  }

  // ----- Written ahead, and not abandoned -----

  /** Every transfer is written ahead: a step that makes a claim the
      controller of an existing sandbox found that sandbox recorded on the
      claim, in every run; in a careful run it is the current record. */
  lemma {:induction false} TransferIsWrittenAhead(states: seq<State>, steps: seq<Step>, i: nat, n: Name, c: ClaimId)
    requires IsRun(states, steps) && i < |steps|
    requires Shape(states[i]) && Shape(states[i + 1])
    requires n in states[i].sandboxes && Server(states[i + 1], n).Some?
    requires Server(states[i + 1], n).value.owner == ClaimOwned(c)
    requires Server(states[i], n).Some? ==> Server(states[i], n).value.owner != ClaimOwned(c)
    ensures steps[i] == Transfer(c) && states[i + 1].claims[c].pass.moved == Some(n)
    ensures c in states[i].claims && n in Ever(states[i].claims[c].obj.hist)
    ensures Careful(states, steps) ==> Current(states[i], c).recorded == Some(n)
  {
    CoreRun(states, steps, i);
    var s := states[i];
    assert Takes(s, steps[i], states[i + 1]);
    OnlyTransfersMove(s, steps[i], n, c);
    assert CoreClaim(s, c) && CorePc(s, c);
    if Careful(states, steps) {
      BindRun(states, steps, i);
      assert BindClaim(s, c);
      assert Alive(s, c, n);
    }
  }

  lemma {:induction false} OnlyTransfersMove(s: State, a: Step, n: Name, c: ClaimId)
    requires Core(s) && Enabled(s, a) && n in s.sandboxes
    requires var t := Next(s, a); Shape(t) && Server(t, n).Some? && Server(t, n).value.owner == ClaimOwned(c)
    requires Server(s, n).Some? ==> Server(s, n).value.owner != ClaimOwned(c)
    ensures a == Transfer(c) && PcOf(s, c).name == n && PcOf(s, c).base == |s.sandboxes[n].hist|
    ensures Next(s, a).claims[c].pass.moved == Some(n)
  {
    if !Writes(a) {
      QuietSteps(s, a, n);
    }
  }

  lemma {:induction false} PassRun(states: seq<State>, steps: seq<Step>, i: nat, c: ClaimId)
    requires IsRun(states, steps) && i < |states| && c in states[i].claims
    ensures Shape(states[i]) && BoundPass(states[i], c)
  {
    if i > 0 {
      assert Takes(states[i - 1], steps[i - 1], states[i - 1 + 1]);
      if c in states[i - 1].claims {
        PassRun(states, steps, i - 1, c);
        StepPass(states[i - 1], steps[i - 1], c);
      } else {
        CoreRun(states, steps, i);
        OnlyNewClaims(states[i - 1], steps[i - 1], c);
      }
    }
  }

  lemma {:induction false} SameClaimsOutside(s: State, a: Step)
    requires Shape(s) && Enabled(s, a) && Outside(a) && !a.ClaimNew?
    ensures Next(s, a).claims.Keys == s.claims.Keys
  {
  }

  lemma {:induction false} SameClaims(s: State, a: Step)
    requires Shape(s) && Enabled(s, a) && !a.ClaimNew?
    ensures Next(s, a).claims.Keys == s.claims.Keys
  {
    hide Next;
    if Outside(a) {
      SameClaimsOutside(s, a);
    } else if OnRecord(a) {
      RecordFrame(s, a);
    } else {
      OwnFrame(s, a);
    }
  }

  lemma {:induction false} OnlyNewClaims(s: State, a: Step, c: ClaimId)
    requires Shape(s) && Enabled(s, a) && c !in s.claims && c in Next(s, a).claims
    ensures a.ClaimNew? && a.c == c && Next(s, a).claims[c].pass == Pass(Idle, None, None)
  {
    if !a.ClaimNew? {
      SameClaims(s, a);
    }
  }

  /** How a pass ends, in every run. After committing an assignment of a
      sandbox, a pass that ran to its end adopted that sandbox, or cleared that
      reference, or failed leaving it recorded; and a pass moves at most the
      sandbox it adopted, never another. */
  lemma {:induction false} PassIsNotAbandoned(states: seq<State>, steps: seq<Step>, i: nat, c: ClaimId)
    requires IsRun(states, steps) && i < |states|
    requires c in states[i].claims && states[i].claims[c].pass.pc.Ended?
    ensures Shape(states[i])
    ensures var p := states[i].claims[c].pass; var r := Current(states[i], c);
      && (p.moved.Some? ==> p.pc == Ended(Adopted(p.moved.value)))
      && (p.committed.Some? ==>
            var n := p.committed.value;
            || (p.pc == Ended(Adopted(n)) && r.recorded == Some(n))
            || (p.pc == Ended(Cleared(n)) && (r.recorded == None || r.gone))
            || (p.pc == Ended(Failed) && r.recorded == Some(n)))
  {
    PassRun(states, steps, i, c);
  }

  /** A cold start after a successful fresh read never duplicates a warm
      sandbox. */
  lemma {:induction false} CheckedColdCreateIsAlone(states: seq<State>, steps: seq<Step>, i: nat, c: ClaimId, n: Name,
                                                    m: Name)
    requires IsRun(states, steps) && Careful(states, steps) && i < |steps|
    requires steps[i] == ColdCreate(c, n) && c in states[i].claims && PcOf(states[i], c) == Creating(true)
    ensures Shape(states[i]) && !Holds(states[i], c, m)
  {
    BindRun(states, steps, i);
    assert BindClaim(states[i], c);
    if Holds(states[i], c, m) {
      HeldIsRecorded(states[i], c, m);
    }
  }
}
