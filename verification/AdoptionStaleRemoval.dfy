/** A harmful removal comes up in the code: a concrete run, with caches that
    lag but never go back and without any removal before it.

    A first pass commits sandbox x, finds it deleted and clears the reference.
    A second pass, on the oldest view of the claim, adopts y. A third pass, on
    a view from the time of x, finds x gone and is about to remove the
    reference without a lock, which erases y. */
module AdoptionStaleRemoval {
  import opened Common
  import opened Adoption
  import opened AdoptionSafety
  import opened AdoptionBinding
  import opened AdoptionTheorems
  import opened AdoptionExact

  const WARM := Live(Sandbox(PoolOwned("p"), false, true, false))
  const MINE := Live(Sandbox(ClaimOwned("c"), false, false, false))
  const NONE := ClaimVersion(None, false)
  const X := ClaimVersion(Some("x"), false)
  const Y := ClaimVersion(Some("y"), false)

  // A sandbox in its pool, gone, gone and seen so, and adopted.
  const W := Tracked([WARM], 1)
  const G := Tracked([WARM, Removed], 1)
  const GS := Tracked([WARM, Removed], 2)
  const M := Tracked([WARM, MINE], 1)

  // Two sandboxes and one claim.
  datatype Stage = Stage(x: Tracked<SandboxVersion>, y: Tracked<SandboxVersion>, h: seq<ClaimVersion>, seen: nat, pass: Pass)

  function At(k: Stage): State {
    State(map["x" := k.x, "y" := k.y], map["c" := Claim("p", Tracked(k.h, k.seen), k.pass)])
  }

  predicate Sound(k: Stage) {
    && k.x.hist != [] && k.y.hist != [] && k.h != []
    && k.x.seen <= |k.x.hist| && k.y.seen <= |k.y.hist| && k.seen <= |k.h|
  }

  // ----- Updates of a scene, spelled out -----

  lemma {:induction false} ClaimUpdates(k: Stage, pc: Pc, pass: Pass, v: ClaimVersion)
    ensures WithPc(At(k), "c", pc) == At(k.(pass := k.pass.(pc := pc)))
    ensures WithClaim(At(k), "c", v) == At(k.(h := k.h + [v]))
    ensures At(k).(claims := At(k).claims["c" := At(k).claims["c"].(pass := pass)]) == At(k.(pass := pass))
  {
    assert WithPc(At(k), "c", pc).claims == At(k.(pass := k.pass.(pc := pc))).claims;
    assert WithClaim(At(k), "c", v).claims == At(k.(h := k.h + [v])).claims;
    assert At(k).claims["c" := At(k).claims["c"].(pass := pass)] == At(k.(pass := pass)).claims;
  }

  lemma {:induction false} SandboxUpdates(k: Stage, b: SandboxVersion)
    ensures WithSandbox(At(k), "x", b) == At(k.(x := Append(k.x, b)))
    ensures WithSandbox(At(k), "y", b) == At(k.(y := Append(k.y, b)))
  {
    assert WithSandbox(At(k), "x", b).sandboxes == At(k.(x := Append(k.x, b))).sandboxes;
    assert WithSandbox(At(k), "y", b).sandboxes == At(k.(y := Append(k.y, b))).sandboxes;
  }

  lemma {:induction false} Begins(k: Stage)
    requires Sound(k) && k.pass.pc.Idle? && 0 < k.seen && !k.h[k.seen - 1].gone
    ensures Takes(At(k), Begin("c"), At(k.(pass := Pass(Look(k.seen), None, None))))
  {
    ClaimUpdates(k, Idle, Pass(Look(k.seen), None, None), NONE);
  }

  // A step that only moves the pass.
  lemma {:induction false} Moves(k: Stage, a: Step, pc: Pc)
    requires Sound(k) && (Shape(At(k)) ==> Enabled(At(k), a) && Next(At(k), a) == WithPc(At(k), "c", pc))
    ensures Takes(At(k), a, At(k.(pass := k.pass.(pc := pc))))
  {
    ClaimUpdates(k, pc, k.pass, NONE);
  }

  // A commit of an assignment.
  lemma {:induction false} Commits(k: Stage, a: Step, n: Name, base: nat)
    requires Sound(k) && (Shape(At(k)) ==> Enabled(At(k), a) && Next(At(k), a) == Committed(At(k), "c", n, base))
    ensures Takes(At(k), a,
              At(k.(h := k.h + [ClaimVersion(Some(n), false)], pass := Pass(Transferring(n, base, false), Some(n), k.pass.moved))))
  {
    ClaimUpdates(k, Idle, k.pass, ClaimVersion(Some(n), false));
    ClaimUpdates(k.(h := k.h + [ClaimVersion(Some(n), false)]), Idle, Pass(Transferring(n, base, false), Some(n), k.pass.moved), NONE);
  }

  // A write that drops the reference.
  lemma {:induction false} Drops(k: Stage, a: Step, pc: Pc)
    requires Sound(k) && (Shape(At(k)) ==> Enabled(At(k), a) && Next(At(k), a) == WithPc(WithClaim(At(k), "c", NONE), "c", pc))
    ensures Takes(At(k), a, At(k.(h := k.h + [NONE], pass := k.pass.(pc := pc))))
  {
    ClaimUpdates(k, Idle, k.pass, NONE);
    ClaimUpdates(k.(h := k.h + [NONE]), pc, k.pass, NONE);
  }

  // A transfer of y from the version the pass holds.
  lemma {:induction false} TransfersY(k: Stage)
    requires Sound(k) && k.pass.pc.Transferring? && k.pass.pc.name == "y" && k.y == W && k.pass.pc.base == 1
    ensures Takes(At(k), Transfer("c"), At(k.(y := M, pass := Pass(Ended(Adopted("y")), k.pass.committed, Some("y")))))
  {
    SandboxUpdates(k, MINE);
    assert Append(W, MINE) == M;
    ClaimUpdates(k.(y := M), Idle, Pass(Ended(Adopted("y")), k.pass.committed, Some("y")), NONE);
  }

  // ----- The three passes -----

  const P0 := Pass(Idle, None, None)
  const A := Stage(W, W, [NONE], 1, P0)
  const B := Stage(G, W, [NONE, X], 1, Pass(Transferring("x", 1, false), Some("x"), None))
  const C := Stage(G, W, [NONE, X, NONE], 1, Pass(Idle, Some("x"), None))
  const D := Stage(G, W, [NONE, X, NONE, Y], 1, Pass(Transferring("y", 1, false), Some("y"), None))
  const E := Stage(GS, M, [NONE, X, NONE, Y], 2, Pass(Idle, Some("y"), Some("y")))

  predicate NoRemoval(steps: seq<Step>) {
    forall i | 0 <= i < |steps| :: !steps[i].Remove?
  }

  // A run from a first state to s without removals.
  ghost predicate Reached(s: State) {
    exists states, steps :: IsRun(states, steps) && NoRemoval(steps) && states[|steps|] == s
  }

  lemma {:induction false} Then(s: State, a: Step, t: State)
    requires Reached(s) && Takes(s, a, t) && !a.Remove?
    ensures Reached(t)
  {
    var states, steps :| IsRun(states, steps) && NoRemoval(steps) && states[|steps|] == s;
    var states', steps' := states + [t], steps + [a];
    forall i | 0 <= i < |steps'|
      ensures Takes(states'[i], steps'[i], states'[i + 1])
    {
      if i < |steps| {
        assert Takes(states[i], steps[i], states[i + 1]);
      }
    }
    assert IsRun(states', steps') && NoRemoval(steps') && states'[|steps'|] == t;
  }

  // Goes on with a step that only moves the pass.
  lemma {:induction false} ThenMoves(k: Stage, a: Step, pc: Pc, l: Stage)
    requires Reached(At(k)) && Sound(k) && !a.Remove? && l == k.(pass := k.pass.(pc := pc))
    requires Shape(At(k)) ==> Enabled(At(k), a) && Next(At(k), a) == WithPc(At(k), "c", pc)
    ensures Reached(At(l))
  {
    Moves(k, a, pc);
    Then(At(k), a, At(l));
  }

  lemma {:induction false} StartsOnX()
    ensures Reached(At(A.(pass := Pass(Assigning(1, "x", 1), None, None))))
  {
    var steps: seq<Step> := [];
    assert IsRun([At(A)], steps) && NoRemoval(steps) && [At(A)][|steps|] == At(A);
    Begins(A);
    Then(At(A), Begin("c"), At(A.(pass := Pass(Look(1), None, None))));
    ThenMoves(A.(pass := Pass(Look(1), None, None)), LookUp("c"), Search(1), A.(pass := Pass(Search(1), None, None)));
    ThenMoves(A.(pass := Pass(Search(1), None, None)), Pick("c", "x"), Assigning(1, "x", 1),
              A.(pass := Pass(Assigning(1, "x", 1), None, None)));
  }

  // A first pass commits x, which is then deleted.
  lemma {:induction false} CommitsX()
    ensures Reached(At(B))
  {
    StartsOnX();
    var k := A.(pass := Pass(Assigning(1, "x", 1), None, None));
    var l := Stage(W, W, [NONE, X], 1, Pass(Transferring("x", 1, false), Some("x"), None));
    Commits(k, Assign("c"), "x", 1);
    assert [NONE] + [X] == [NONE, X];
    Then(At(k), Assign("c"), At(l));
    SandboxUpdates(l, Removed);
    assert Append(W, Removed) == G;
    Then(At(l), SandboxGone("x"), At(B));
  }

  // The pass finds x gone and clears the reference.
  lemma {:induction false} FindsXGone()
    ensures Reached(At(B.(pass := Pass(ClearWriting(2, "x"), Some("x"), None))))
  {
    CommitsX();
    var b1 := B.(pass := Pass(Resolving("x"), Some("x"), None));
    var b2 := B.(pass := Pass(Clearing("x"), Some("x"), None));
    ThenMoves(B, Transfer("c"), Resolving("x"), b1);
    ThenMoves(b1, Resolve("c"), Clearing("x"), b2);
    ThenMoves(b2, ClearRead("c"), ClearWriting(2, "x"), B.(pass := Pass(ClearWriting(2, "x"), Some("x"), None)));
  }

  lemma {:induction false} ClearsX()
    ensures Reached(At(C))
  {
    FindsXGone();
    var b3 := B.(pass := Pass(ClearWriting(2, "x"), Some("x"), None));
    var c0 := C.(pass := Pass(Ended(Cleared("x")), Some("x"), None));
    Drops(b3, ClearWrite("c"), Ended(Cleared("x")));
    assert B.h + [NONE] == C.h;
    Then(At(b3), ClearWrite("c"), At(c0));
    ThenMoves(c0, Finish("c"), Idle, C);
  }

  // A second pass, on the oldest view of the claim, wants y.
  lemma {:induction false} StartsOnY()
    ensures Reached(At(C.(pass := Pass(Assigning(1, "y", 1), None, None))))
  {
    ClearsX();
    var c1 := C.(pass := Pass(Look(1), None, None));
    var c2 := C.(pass := Pass(Search(1), None, None));
    Begins(C);
    Then(At(C), Begin("c"), At(c1));
    ThenMoves(c1, LookUp("c"), Search(1), c2);
    ThenMoves(c2, Pick("c", "y"), Assigning(1, "y", 1), C.(pass := Pass(Assigning(1, "y", 1), None, None)));
  }

  lemma {:induction false} CommitsY()
    ensures Reached(At(D))
  {
    StartsOnY();
    var c3 := C.(pass := Pass(Assigning(1, "y", 1), None, None));
    var c4 := C.(pass := Pass(Rereading("y", 1), None, None));
    var c5 := C.(pass := Pass(Reassigning(3, "y", 1), None, None));
    ThenMoves(c3, Assign("c"), Rereading("y", 1), c4);
    ThenMoves(c4, Reread("c"), Reassigning(3, "y", 1), c5);
    Commits(c5, Reassign("c"), "y", 1);
    assert C.h + [Y] == D.h;
    Then(At(c5), Reassign("c"), At(D));
  }

  const D1 := Stage(G, M, [NONE, X, NONE, Y], 1, Pass(Idle, Some("y"), Some("y")))

  lemma {:induction false} AdoptsY()
    ensures Reached(At(D1))
  {
    CommitsY();
    var d := D1.(pass := Pass(Ended(Adopted("y")), Some("y"), Some("y")));
    TransfersY(D);
    Then(At(D), Transfer("c"), At(d));
    ThenMoves(d, Finish("c"), Idle, D1);
  }

  // The cache then shows the claim at the time of x, and x gone.
  lemma {:induction false} CacheLags()
    ensures Reached(At(E))
  {
    AdoptsY();
    var d := D1.(seen := 2);
    assert Next(At(D1), CacheClaim("c")).claims == At(d).claims;
    Then(At(D1), CacheClaim("c"), At(d));
    assert Next(At(d), CacheSandbox("x")).sandboxes == At(E).sandboxes;
    Then(At(d), CacheSandbox("x"), At(E));
  }

  // A third pass finds x gone, and is to remove the reference.
  lemma {:induction false} FindsXAgain()
    ensures Reached(At(E.(pass := Pass(Removing("x"), None, None))))
  {
    CacheLags();
    var e1 := E.(pass := Pass(Look(2), None, None));
    Begins(E);
    Then(At(E), Begin("c"), At(e1));
    ThenMoves(e1, LookUp("c"), Removing("x"), E.(pass := Pass(Removing("x"), None, None)));
  }

  /** The harmful removal comes up: a careful run reaches it, and careful
      steps after it leave the claim with two live adopted sandboxes. */
  lemma {:induction false} StaleRemovalBreaksBinding() returns (states: seq<State>, steps: seq<Step>, t: State)
    ensures IsRun(states, steps) && Careful(states, steps)
    ensures var s := states[|steps|];
      && Bind(s) && Enabled(s, Remove("c")) && !Harmless(s, "c")
      && Onward(Next(s, Remove("c")), t) && Doubled(t)
  {
    FindsXAgain();
    var s := At(E.(pass := Pass(Removing("x"), None, None)));
    states, steps :| IsRun(states, steps) && NoRemoval(steps) && states[|steps|] == s;
    BindRun(states, steps, |steps|);
    assert Alive(s, "c", "y");
    t := HarmfulRemovalDoubles(s, "c", "z");
  }
}
