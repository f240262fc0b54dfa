/** What a pass that committed an assignment does with it: kept by every step
    of every run, whatever the caches show and whatever removals there are. */
module AdoptionPass {
  import opened Common
  import opened Adoption
  import opened AdoptionBinding

  /** The pass's own record: it moved at most one sandbox, and once it
      committed an assignment it works on that sandbox alone. */
  ghost predicate BoundPass(s: State, c: ClaimId)
    requires Shape(s) && c in s.claims
  {
    var p := s.claims[c].pass;
    var r := Current(s, c).recorded;
    && (p.moved.Some? ==> p.pc.Idle? || p.pc == Ended(Adopted(p.moved.value)))
    && (p.committed.Some? ==>
          var n := p.committed.value;
          && (p.moved.Some? ==> p.moved == Some(n))
          && match p.pc
             case Idle => true
             case Transferring(m, _, _) => m == n && r == Some(n)
             case Resolving(m) => m == n && r == Some(n)
             case Clearing(m) => m == n && r == Some(n)
             case ClearWriting(_, m) => m == n && r == Some(n)
             case Ended(Adopted(m)) => m == n && r == Some(n)
             case Ended(Cleared(m)) => m == n && (r == None || Current(s, c).gone)
             case Ended(Failed) => r == Some(n)
             case _ => false)
  }

  // The claim is as it was, but for versions that record the same sandbox.
  lemma {:induction false} SameRecord(s: State, t: State, c: ClaimId)
    requires Shape(s) && Shape(t) && c in s.claims && c in t.claims && BoundPass(s, c)
    requires t.claims[c].pass == s.claims[c].pass
    requires Current(t, c).recorded == Current(s, c).recorded && (Current(s, c).gone ==> Current(t, c).gone)
    ensures BoundPass(t, c)
  {
  }

  // A step of another claim, or of the world around the claims.
  lemma {:induction false} ElsewherePass(s: State, a: Step, c: ClaimId)
    requires Shape(s) && Enabled(s, a) && c in s.claims && BoundPass(s, c)
    requires Outside(a) && !(a.ColdCreate? && a.c == c)
    ensures Shape(Next(s, a)) && BoundPass(Next(s, a), c)
  {
    SameRecord(s, Next(s, a), c);
  }

  // A step of a pass changes the one claim that it is about.
  lemma {:induction false} RecordFrame(s: State, a: Step)
    requires Shape(s) && Enabled(s, a) && OnRecord(a)
    ensures Shape(Next(s, a)) && a.c in s.claims && a.c in Next(s, a).claims
    ensures Next(s, a).claims == s.claims[a.c := Next(s, a).claims[a.c]]
  {
  }

  lemma {:induction false} OwnFrame(s: State, a: Step)
    requires Shape(s) && Enabled(s, a) && !Outside(a) && !OnRecord(a)
    ensures Shape(Next(s, a)) && a.c in s.claims && a.c in Next(s, a).claims
    ensures Next(s, a).claims == s.claims[a.c := Next(s, a).claims[a.c]]
  {
  }

  lemma {:induction false} OtherClaim(s: State, a: Step, c: ClaimId)
    requires Shape(s) && Enabled(s, a) && c in s.claims && !Outside(a) && a.c != c
    ensures Shape(Next(s, a)) && c in Next(s, a).claims && Next(s, a).claims[c] == s.claims[c]
  {
    hide Next;
    if OnRecord(a) {
      RecordFrame(s, a);
    } else {
      OwnFrame(s, a);
    }
  }

  lemma {:induction false} OtherClaimPass(s: State, a: Step, c: ClaimId)
    requires Shape(s) && Enabled(s, a) && c in s.claims && BoundPass(s, c)
    requires !Outside(a) && a.c != c
    ensures Shape(Next(s, a)) && BoundPass(Next(s, a), c)
  {
    hide Next, Enabled;
    OtherClaim(s, a, c);
    SameRecord(s, Next(s, a), c);
  }

  // The claim's own reads and writes of its record.
  lemma {:induction false} RecordStepPass(s: State, a: Step, c: ClaimId)
    requires Shape(s) && Enabled(s, a) && c in s.claims && BoundPass(s, c)
    requires OnRecord(a) && a.c == c
    ensures Shape(Next(s, a)) && BoundPass(Next(s, a), c)
  {
    RecordFrame(s, a);
  }

  // The other steps of its pass.
  lemma {:induction false} OwnStepPass(s: State, a: Step, c: ClaimId)
    requires Shape(s) && Enabled(s, a) && c in s.claims && BoundPass(s, c)
    requires (!Outside(a) || a.ColdCreate?) && !OnRecord(a) && a.c == c
    ensures Shape(Next(s, a)) && BoundPass(Next(s, a), c)
  {
    if !a.ColdCreate? {
      OwnFrame(s, a);
    }
  }

  lemma {:induction false} StepPass(s: State, a: Step, c: ClaimId)
    requires Shape(s) && Enabled(s, a) && c in s.claims && BoundPass(s, c)
    ensures Shape(Next(s, a)) && c in Next(s, a).claims && BoundPass(Next(s, a), c)
  {
    if Outside(a) && !(a.ColdCreate? && a.c == c) {
      ElsewherePass(s, a, c);
    } else if a.c != c {
      OtherClaimPass(s, a, c);
    } else if OnRecord(a) {
      RecordStepPass(s, a, c);
    } else {
      OwnStepPass(s, a, c);
    }
  }
}
