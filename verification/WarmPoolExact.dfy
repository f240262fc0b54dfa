/** When the pending count is exact: from any quiet moment on, until a record
    that times out takes pending creates with it. */
module WarmPoolExact {
  import opened Common
  import opened Expectations
  import opened WarmPoolLog
  import opened WarmPoolProtocol
  import opened WarmPoolSafety

  /** The accounting law: the pending count is the pool's own creates whose
      add event is unhandled, plus the part of a running batch that has not
      produced a Sandbox; and since the gate the batch alone made members. */
  ghost predicate Exact(s: State)
    requires Cursors(s)
  {
    && Pending(s.rec) == CountOwnAdds(s.log[s.handled..]) + Outstanding(s)
    && (s.pass.Some? && s.pass.value.stage.Creating? ==>
          var st := s.pass.value.stage;
          st.heardAtGate <= |s.log| && OwnAdds(s.log[st.heardAtGate..]) == st.made)
  }

  // No batch is running, and every own add was handled.
  ghost predicate Quiet(s: State)
    requires Cursors(s)
  {
    !(s.pass.Some? && s.pass.value.stage.Creating?) && CountOwnAdds(s.log[s.handled..]) == 0
  }

  // Exactness comes back at every quiet moment, whatever was forgotten before.
  lemma {:induction false} QuietIsExact(s: State)
    requires Inv(s) && Quiet(s)
    ensures Exact(s)
  {
  }

  // What the law reads of a pass.
  predicate SameBatch(s: State, t: State) {
    && (s.pass.Some? && s.pass.value.stage.Creating? <==> t.pass.Some? && t.pass.value.stage.Creating?)
    && (s.pass.Some? && s.pass.value.stage.Creating? ==>
          var a, b := s.pass.value.stage, t.pass.value.stage;
          a.n == b.n && a.made == b.made && a.heardAtGate == b.heardAtGate)
  }

  lemma {:induction false} NotOwnAdded(log: seq<Event>, e: Event, k: nat)
    requires !OwnAdd(e) && k <= |log|
    ensures CountOwnAdds((log + [e])[k..]) == CountOwnAdds(log[k..])
    ensures OwnAdds((log + [e])[k..]) == OwnAdds(log[k..])
  {
    assert (log + [e])[k..] == log[k..] + [e];
    assert (log[k..] + [e])[..|log[k..]|] == log[k..];
    OwnAddsExtend(log[k..], e);
  }

  // A step that leaves cursors, batch and pending creates alone, and commits no own add.
  lemma {:induction false} ExactFrame(s: State, t: State, e: Option<Event>)
    requires Cursors(s) && Cursors(t) && Exact(s) && SameBatch(s, t)
    requires t.handled == s.handled && Pending(t.rec) == Pending(s.rec)
    requires t.log == (if e.Some? then s.log + [e.value] else s.log)
    requires e.Some? ==> !OwnAdd(e.value)
    ensures Exact(t)
  {
    if e.Some? {
      NotOwnAdded(s.log, e.value, s.handled);
      if s.pass.Some? && s.pass.value.stage.Creating? {
        NotOwnAdded(s.log, e.value, s.pass.value.stage.heardAtGate);
      }
    }
  }

  lemma {:induction false} HandleExact(s: State)
    requires Inv(s) && Exact(s) && Enabled(s, Handle)
    ensures Cursors(Next(s, Handle)) && Exact(Next(s, Handle))
  {
    CountHandled(s.log, s.handled);
  }

  lemma {:induction false} GateExact(s: State, n: nat)
    requires Inv(s) && Exact(s) && Enabled(s, Gate(n)) && !Forgets(s, Gate(n))
    ensures Cursors(Gated(s, n)) && Exact(Gated(s, n))
  {
    if Open(s.rec, s.clock) {
      OwnAddsCounted(s.log[s.handled..]);
    } else {
      ExactFrame(s, Gated(s, n), None);
    }
  }

  lemma {:induction false} CreatedExact(s: State, u: Uid)
    requires Cursors(s) && Exact(s) && s.pass.Some? && s.pass.value.stage.Creating? && u !in s.pass.value.stage.made
    ensures Cursors(Created(s, u, true)) && Exact(Created(s, u, true))
  {
    var e, g := Added(u, Sandbox(ThisPool, false, true)), s.pass.value.stage.heardAtGate;
    CommitSlices(s, e);
    assert (s.log + [e])[g..] == s.log[g..] + [e];
    OwnAddsExtend(s.log[g..], e);
  }

  lemma {:induction false} CreateExact(s: State, u: Uid)
    requires Inv(s) && Exact(s) && s.pass.Some? && s.pass.value.stage.Creating? && u !in Born(s.log)
    ensures Cursors(Created(s, u, true)) && Exact(Created(s, u, true))
  {
    hide Exact, Created;
    FreshIsUnlisted(s, u);
    MadeIsOld(s, u);
    CreatedExact(s, u);
  }

  lemma {:induction false} MadeIsOld(s: State, u: Uid)
    requires Inv(s) && s.pass.Some? && s.pass.value.stage.Creating? && u !in OwnAdds(s.log)
    ensures u !in s.pass.value.stage.made
  {
    SuffixAdds(s.log, s.listed);
  }

  lemma {:induction false} SuffixAdds(log: seq<Event>, k: nat)
    requires k <= |log|
    ensures OwnAdds(log[k..]) <= OwnAdds(log)
  {
    forall u | u in OwnAdds(log[k..])
      ensures u in OwnAdds(log)
    {
      var i :| 0 <= i < |log| - k && OwnAdd(log[k..][i]) && log[k..][i].uid == u;
      assert log[k + i] == log[k..][i];
    }
  }

  lemma {:induction false} SettleExact(s: State)
    requires Inv(s) && Exact(s) && s.pass.Some? && s.pass.value.stage.Creating?
    ensures Cursors(Settled(s)) && Exact(Settled(s))
  {
  }

  lemma {:induction false} OutsideExact(s: State, a: Step)
    requires Inv(s) && Exact(s) && Enabled(s, a) && (a.EnvAdd? || a.EnvModify? || a.EnvDelete? || a.Tick? || a.Inform?)
    ensures Cursors(Next(s, a)) && Exact(Next(s, a))
  {
    var t := Next(s, a);
    match a
    case EnvAdd(u, sb) => ExactFrame(s, t, Some(Added(u, sb)));
    case EnvModify(u, sb) => ExactFrame(s, t, Some(Modified(u, sb)));
    case EnvDelete(u) => ExactFrame(s, t, Some(Deleted(u, s.api[u].sb)));
    case _ => ExactFrame(s, t, None);
  }

  lemma {:induction false} FilteredFrame(s: State, u: Uid, stale: bool, ok: bool)
    requires s.pass.Some? && s.pass.value.stage.Filtering? && u in s.pass.value.view
    requires ok && VerdictOn(s, u, stale) in {Relabel, Adopt} ==> LockHolds(s, u)
    ensures var t := Filtered(s, u, stale, ok);
      && t.handled == s.handled && t.store == s.store && t.listed == s.listed && Pending(t.rec) == Pending(s.rec)
      && SameBatch(s, t)
      && t.log == if ok && VerdictOn(s, u, stale) in {Relabel, Adopt}
                  then s.log + [Modified(u, Sandbox(ThisPool, s.pass.value.view[u].sb.deleting, true))] else s.log
  {
  }

  lemma {:induction false} FilterExact(s: State, u: Uid, stale: bool, ok: bool)
    requires Inv(s) && Exact(s) && Enabled(s, FilterItem(u, stale, ok))
    ensures Cursors(Filtered(s, u, stale, ok)) && Exact(Filtered(s, u, stale, ok))
  {
    FilteredFrame(s, u, stale, ok);
    hide Filtered, Exact;
    var t := Filtered(s, u, stale, ok);
    if ok && VerdictOn(s, u, stale) in {Relabel, Adopt} {
      ExactFrame(s, t, Some(Modified(u, Sandbox(ThisPool, s.pass.value.view[u].sb.deleting, true))));
    } else {
      ExactFrame(s, t, None);
    }
  }

  lemma {:induction false} DeleteDoneExact(s: State, u: Uid, o: Outcome)
    requires Inv(s) && Exact(s) && Enabled(s, DeleteDone(u, o))
    ensures Cursors(Undeleted(s, u, o)) && Exact(Undeleted(s, u, o))
  {
    UndeletedIs(s, u, o);
    var t := Undeleted(s, u, o);
    if o == Removed {
      ExactFrame(s, t, Some(Deleted(u, s.api[u].sb)));
    } else if o == Marked {
      ExactFrame(s, t, Some(Modified(u, s.api[u].sb.(deleting := true))));
    } else {
      ExactFrame(s, t, None);
    }
  }

  // The steps that move only the pass, and record only deletions.
  predicate MovesPass(a: Step) {
    || a.List? || a.EndFilter? || a.GradeItem? || a.SkipCreate? || a.TrimGate? || a.TrimItem? || a.EndPass?
    || (a.CreateOne? && !a.ok)
  }

  lemma {:induction false} PassStepFrame(s: State, a: Step)
    requires Cursors(s) && Enabled(s, a) && !Forgets(s, a) && MovesPass(a) && Pending(s.rec) >= 0
    ensures var t := Next(s, a);
      Cursors(t) && t.log == s.log && t.handled == s.handled && Pending(t.rec) == Pending(s.rec) && SameBatch(s, t)
  {
  }

  lemma {:induction false} PassStepExact(s: State, a: Step)
    requires Inv(s) && Exact(s) && Enabled(s, a) && !Forgets(s, a) && MovesPass(a)
    ensures Cursors(Next(s, a)) && Exact(Next(s, a))
  {
    PassStepFrame(s, a);
    hide Next, Exact, Enabled;
    ExactFrame(s, Next(s, a), None);
  }

  lemma {:induction false} StepExact(s: State, a: Step)
    requires Inv(s) && Exact(s) && Enabled(s, a) && !Forgets(s, a)
    ensures Cursors(Next(s, a)) && Exact(Next(s, a))
  {
    if a.EnvAdd? || a.EnvModify? || a.EnvDelete? || a.Tick? || a.Inform? {
      OutsideExact(s, a);
    } else if a.Handle? {
      HandleExact(s);
    } else if a.FilterItem? {
      FilterExact(s, a.uid, a.stale, a.ok);
    } else if a.DeleteDone? {
      DeleteDoneExact(s, a.uid, a.outcome);
    } else if a.Gate? {
      GateExact(s, a.n);
    } else if a.CreateOne? && a.ok {
      CreateExact(s, a.uid);
    } else if a.EndCreate? {
      SettleExact(s);
    } else {
      PassStepExact(s, a);
    }
  }
}
