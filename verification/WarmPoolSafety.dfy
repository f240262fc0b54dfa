/** What every run of the replenishment protocol keeps, and the bound on the
    pool's population that follows from it. */
module WarmPoolSafety {
  import opened Common
  import opened Expectations
  import opened WarmPoolLog
  import opened WarmPoolProtocol

  // ----- Runs -----

  ghost predicate Cursors(s: State) {
    s.handled <= s.store <= |s.log| && s.listed <= s.store
  }

  ghost predicate IsRun(states: seq<State>, steps: seq<Step>) {
    && |states| == |steps| + 1
    && Init(states[0])
    && forall i | 0 <= i < |steps| ::
         Cursors(states[i]) && Enabled(states[i], steps[i]) && states[i + 1] == Next(states[i], steps[i])
  }

  // ----- The invariants -----

  // Creates of the current batch that are still to succeed or to be lowered.
  function Outstanding(s: State): int {
    if s.pass.Some? && s.pass.value.stage.Creating? then
      s.pass.value.stage.n - |s.pass.value.stage.made|
    else 0
  }

  ghost predicate InvLog(s: State) {
    && Cursors(s) && History(s.log) && s.api == Replay(s.log)
    && (s.pass.Some? ==> s.pass.value.view == Replay(s.log[..s.listed]))
    && WellFormed(s.rec)
  }

  // The pending count never exceeds what is still to be heard of.
  ghost predicate InvCount(s: State)
    requires Cursors(s)
  {
    Pending(s.rec) <= CountOwnAdds(s.log[s.handled..]) + Outstanding(s)
  }

  // A member of the pool was created by the pool or listed by it.
  ghost predicate InvOrigin(s: State)
    requires Cursors(s)
  {
    forall u | u in Owned(s.api) :: u in Born(s.log[..s.listed]) || u in OwnAdds(s.log)
  }

  function Seen(p: Pass): set<Uid> {
    p.active + p.terminating + p.skipped + p.inflight
  }

  // A member is counted, skipped or being deleted once.
  ghost predicate Apart(p: Pass) {
    && p.active !! p.terminating && p.active !! p.skipped && p.active !! p.inflight
    && p.terminating !! p.skipped && p.terminating !! p.inflight && p.skipped !! p.inflight
  }

  // No listed member is out of sight.
  ghost predicate Sees(s: State, p: Pass, todo: set<Uid>) {
    forall u | u in p.view && u in Owned(s.api) :: u in todo || u in Seen(p)
  }

  ghost predicate InvStage(s: State)
    requires Cursors(s) && s.pass.Some?
  {
    var p := s.pass.value;
    match p.stage
    case Filtering(todo) => todo <= p.view.Keys && todo !! Seen(p) && Sees(s, p, todo)
    case Grading(todo) => todo <= p.active && Sees(s, p, {})
    case Creating(n, tried, made, gate) =>
      && p.inflight == {} && Sees(s, p, {})
      && |made| <= tried <= n && made <= OwnAdds(s.log[s.listed..])
      && n <= p.desired - Total(p)
      && gate <= s.handled
    case Trimming(_) => true
  }

  ghost predicate InvPass(s: State)
    requires Cursors(s)
  {
    s.pass.Some? ==>
      var p := s.pass.value;
      && Seen(p) <= p.view.Keys && Apart(p)
      && (p.clean ==> p.skipped !! Owned(s.api))
      && InvStage(s)
  }

  ghost predicate Inv(s: State) {
    InvLog(s) && InvCount(s) && InvOrigin(s) && InvPass(s)
  }

  // ----- A commit on the log -----

  lemma {:induction false} CommitLog(s: State, e: Event)
    requires InvLog(s) && Fits(s.log, e)
    ensures InvLog(Commit(s, e))
  {
    ReplayExtend(s.log, e);
    assert Commit(s, e).log[..s.listed] == s.log[..s.listed];
  }

  lemma {:induction false} CommitSlices(s: State, e: Event)
    requires Cursors(s)
    ensures var log := Commit(s, e).log;
      && log[..s.listed] == s.log[..s.listed]
      && OwnAdds(log[s.listed..]) == OwnAdds(s.log[s.listed..]) + (if OwnAdd(e) then {e.uid} else {})
      && CountOwnAdds(log[s.handled..]) == CountOwnAdds(s.log[s.handled..]) + (if OwnAdd(e) then 1 else 0)
      && OwnAdds(log) == OwnAdds(s.log) + (if OwnAdd(e) then {e.uid} else {})
  {
    var log := Commit(s, e).log;
    assert log[..s.listed] == s.log[..s.listed];
    assert log[s.handled..] == s.log[s.handled..] + [e];
    CountSplits(s.log[s.handled..], [e]);
    assert [e][..0] == [];
    assert CountOwnAdds([e]) == if OwnAdd(e) then 1 else 0;
    OwnAddsExtend(s.log, e);
    assert log[s.listed..] == s.log[s.listed..] + [e];
    OwnAddsExtend(s.log[s.listed..], e);
  }

  lemma {:induction false} OwnAddsExtend(log: seq<Event>, e: Event)
    ensures OwnAdds(log + [e]) == OwnAdds(log) + (if OwnAdd(e) then {e.uid} else {})
  {
    var next := log + [e];
    assert next[|log|] == e;
    forall u | u in OwnAdds(log)
      ensures u in OwnAdds(next)
    {
      var i :| 0 <= i < |log| && OwnAdd(log[i]) && log[i].uid == u;
      assert next[i] == log[i];
    }
  }

  // A commit that makes no Sandbox the pool's keeps every invariant.
  lemma {:induction false} CommitKeeps(s: State, e: Event)
    requires Inv(s) && Fits(s.log, e)
    requires e.Deleted? || (e.sb.owner.ThisPool? ==> e.Modified? && s.api[e.uid].sb.owner.ThisPool?)
    ensures Inv(Commit(s, e))
    ensures Owned(Commit(s, e).api) <= Owned(s.api)
  {
    CommitLog(s, e);
    CommitSlices(s, e);
    var t := Commit(s, e);
    assert Owned(t.api) <= Owned(s.api);
  }

  // ----- Steps outside the pass -----

  lemma {:induction false} CountHandled(log: seq<Event>, h: nat)
    requires h < |log|
    ensures CountOwnAdds(log[h..]) == CountOwnAdds(log[h + 1..]) + if OwnAdd(log[h]) then 1 else 0
  {
    var e := log[h];
    assert log[h..] == [e] + log[h + 1..];
    CountSplits([e], log[h + 1..]);
    assert [e][..0] == [];
    assert CountOwnAdds([e]) == if OwnAdd(e) then 1 else 0;
  }

  // The handler moves on; pass, log and cache are as they were.
  lemma {:induction false} HeardKeepsPass(s: State, t: State)
    requires Cursors(s) && Cursors(t) && InvPass(s) && InvOrigin(s)
    requires t == s.(handled := t.handled, rec := t.rec) && s.handled <= t.handled
    ensures InvPass(t) && InvOrigin(t)
  {
  }

  lemma {:induction false} HandleKeeps(s: State)
    requires Inv(s) && Enabled(s, Handle)
    ensures Inv(Next(s, Handle))
  {
    CountHandled(s.log, s.handled);
    HeardKeepsPass(s, Next(s, Handle));
  }

  lemma {:induction false} ListKeeps(s: State, a: Step)
    requires Inv(s) && a.List? && Enabled(s, a)
    ensures Inv(Next(s, a))
  {
    var t := Next(s, a);
    BornGrows(s.log[..t.listed], s.listed);
    assert s.log[..t.listed][..s.listed] == s.log[..s.listed];
  }

  // ----- The filter -----

  lemma {:induction false} ListedOwnedIsNotForeign(s: State, u: Uid)
    requires Inv(s) && s.pass.Some? && u in s.pass.value.view && u in Owned(s.api)
    ensures Leads(s.pass.value.view[u].sb, s.api[u].sb)
  {
    ViewLeadsToTruth(s.log, s.listed, u);
  }

  // A listed Sandbox updated under its lock was really what the cache showed.
  lemma {:induction false} LockedUpdateFits(s: State, u: Uid)
    requires Inv(s) && s.pass.Some? && u in s.pass.value.view && LockHolds(s, u)
    requires !s.pass.value.view[u].sb.deleting && !s.pass.value.view[u].sb.owner.Foreign?
    ensures s.api[u] == s.pass.value.view[u]
    ensures Fits(s.log, Modified(u, Sandbox(ThisPool, s.pass.value.view[u].sb.deleting, true)))
    ensures u in Born(s.log[..s.listed])
  {
    ViewLeadsToTruth(s.log, s.listed, u);
    Prefix(s.log, s.listed);
    ReplayedWasBorn(s.log[..s.listed], u);
  }

  // A change of the pass and of the record's deletions, outside a batch, leaves log and books as they are.
  lemma {:induction false} PassAndRecord(s: State, rec: Option<Record>, q: Pass)
    requires InvLog(s) && InvCount(s) && InvOrigin(s)
    requires WellFormed(rec) && Pending(rec) <= Pending(s.rec)
    requires s.pass.Some? && q.view == s.pass.value.view && !q.stage.Creating? && !s.pass.value.stage.Creating?
    ensures var t := WithPass(s.(rec := rec), q); InvLog(t) && InvCount(t) && InvOrigin(t)
  {
  }

  // A change of the pass alone, outside a batch, leaves log and books as they are.
  lemma {:induction false} PassOnly(s: State, q: Pass)
    requires InvLog(s) && InvCount(s) && InvOrigin(s)
    requires s.pass.Some? && q.view == s.pass.value.view && !q.stage.Creating? && !s.pass.value.stage.Creating?
    ensures var t := WithPass(s, q); InvLog(t) && InvCount(t) && InvOrigin(t)
  {
  }

  // The pass after one item: counted or skipped, or left out when it is not the pool's.
  ghost predicate Placed(s: State, q: Pass, u: Uid)
    requires s.pass.Some?
  {
    var p := s.pass.value;
    && p.stage.Filtering? && q.stage == Filtering(p.stage.todo - {u})
    && q.view == p.view && Apart(q)
    && (Seen(q) == Seen(p) + {u} || (Seen(q) == Seen(p) && u !in Owned(s.api)))
    && (!q.clean || (q.clean == p.clean && q.skipped == p.skipped))
  }

  lemma {:induction false} PlacedKeeps(s: State, q: Pass, u: Uid)
    requires Cursors(s) && InvPass(s) && s.pass.Some? && Placed(s, q, u) && u in s.pass.value.stage.todo
    ensures InvPass(WithPass(s, q))
  {
  }

  lemma {:induction false} QuietPlaces(s: State, u: Uid, stale: bool, ok: bool)
    requires s.pass.Some? && s.pass.value.stage.Filtering? && u in s.pass.value.view
    requires Apart(s.pass.value) && u !in Seen(s.pass.value)
    requires u in Owned(s.api) ==> Leads(s.pass.value.view[u].sb, s.api[u].sb)
    requires var v := VerdictOn(s, u, stale); v != DeleteStale && (v in {Relabel, Adopt} ==> !ok)
    ensures var t := Filtered(s, u, stale, ok); t.pass.Some? && t == WithPass(s, t.pass.value) && Placed(s, t.pass.value, u)
  {
    var t, p := Filtered(s, u, stale, ok), s.pass.value;
    var q := t.pass.value;
    assert VerdictOn(s, u, stale) != Ignore ==> Seen(q) == Seen(p) + {u};
  }

  // The verdicts that write nothing, and the failed writes.
  lemma {:induction false} FilterQuietKeeps(s: State, u: Uid, stale: bool, ok: bool)
    requires Inv(s) && s.pass.Some? && s.pass.value.stage.Filtering? && u in s.pass.value.stage.todo
    requires var v := VerdictOn(s, u, stale); v != DeleteStale && (v in {Relabel, Adopt} ==> !ok)
    ensures Inv(Filtered(s, u, stale, ok))
  {
    if u in Owned(s.api) {
      ListedOwnedIsNotForeign(s, u);
    }
    QuietPlaces(s, u, stale, ok);
    var q := Filtered(s, u, stale, ok).pass.value;
    PlacedKeeps(s, q, u);
    PassOnly(s, q);
  }

  lemma {:induction false} FilterDeleteKeeps(s: State, a: Step)
    requires Inv(s) && a.FilterItem? && Enabled(s, a)
    requires VerdictOn(s, a.uid, a.stale) == DeleteStale
    ensures Inv(Next(s, a))
  {
  }

  // The pass after a listed Sandbox became the pool's and was counted active.
  lemma {:induction false} FilterUpdatePass(s: State, c: State, u: Uid)
    requires Cursors(s) && Cursors(c) && s.handled == c.handled && s.listed == c.listed && s.pass == c.pass
    requires InvPass(s) && s.pass.Some? && s.pass.value.stage.Filtering? && u in s.pass.value.stage.todo
    requires Owned(c.api) <= Owned(s.api) + {u}
    ensures InvPass(WithPass(c, CountedActive(s.pass.value, u)))
  {
  }

  function CountedActive(p: Pass, u: Uid): Pass
    requires p.stage.Filtering?
  {
    p.(stage := Filtering(p.stage.todo - {u}), active := p.active + {u})
  }

  // A commit on a listed object, outside a batch, that is no creation.
  lemma {:induction false} UpdateBooks(s: State, e: Event)
    requires Cursors(s) && InvCount(s) && InvOrigin(s)
    requires e.Modified? && e.uid in Born(s.log[..s.listed])
    ensures InvCount(Commit(s, e)) && InvOrigin(Commit(s, e))
    ensures Owned(Commit(s, e).api) <= Owned(s.api) + {e.uid}
  {
    CommitSlices(s, e);
  }

  lemma {:induction false} FilteredUpdate(s: State, u: Uid, stale: bool)
    requires s.pass.Some? && s.pass.value.stage.Filtering? && u in s.pass.value.view
    requires VerdictOn(s, u, stale) in {Relabel, Adopt} && LockHolds(s, u)
    ensures var e := Modified(u, Sandbox(ThisPool, s.pass.value.view[u].sb.deleting, true));
      Filtered(s, u, stale, true) == WithPass(Commit(s, e), CountedActive(s.pass.value, u))
  {
  }

  lemma {:induction false} UpdateKeeps(s: State, e: Event, u: Uid)
    requires Inv(s) && s.pass.Some? && s.pass.value.stage.Filtering? && u in s.pass.value.stage.todo
    requires e.Modified? && e.uid == u && Fits(s.log, e) && u in Born(s.log[..s.listed])
    ensures Inv(WithPass(Commit(s, e), CountedActive(s.pass.value, u)))
  {
    var c, q := Commit(s, e), CountedActive(s.pass.value, u);
    CommitLog(s, e);
    UpdateBooks(s, e);
    FilterUpdatePass(s, c, u);
    PassOnly(c, q);
  }

  lemma {:induction false} FilterUpdateKeeps(s: State, u: Uid, stale: bool)
    requires Inv(s) && s.pass.Some? && s.pass.value.stage.Filtering? && u in s.pass.value.stage.todo
    requires VerdictOn(s, u, stale) in {Relabel, Adopt} && LockHolds(s, u)
    ensures Inv(Filtered(s, u, stale, true))
  {
    LockedUpdateFits(s, u);
    UpdateKeeps(s, Modified(u, Sandbox(ThisPool, s.pass.value.view[u].sb.deleting, true)), u);
    FilteredUpdate(s, u, stale);
  }

  // Bookkeeping of the pass alone: nothing it knew of a member is forgotten.
  lemma {:induction false} PassEditKeeps(s: State, rec: Option<Record>, q: Pass)
    requires Inv(s) && s.pass.Some?
    requires WellFormed(rec) && Pending(rec) == Pending(s.rec)
    requires Edits(s.pass.value, q) && (q.clean ==> q.skipped !! Owned(s.api))
    ensures Inv(WithPass(s.(rec := rec), q))
  {
  }

  ghost predicate Edits(p: Pass, q: Pass) {
    && q.view == p.view && q.stage == p.stage && !p.stage.Creating? && Apart(q)
    && Seen(q) <= Seen(p)
    && (p.stage.Filtering? || p.stage.Grading? ==> Seen(p) == Seen(q))
    && (p.stage.Grading? ==> p.active <= q.active)
  }

  lemma {:induction false} UndeletedEdits(s: State, u: Uid, o: Outcome)
    requires s.pass.Some? && u in s.pass.value.inflight && u in s.pass.value.view && !s.pass.value.stage.Creating?
    requires Apart(s.pass.value) && (o in {Removed, Marked} ==> u in s.api)
    ensures var q := Undeleted(s, u, o).pass.value;
      Edits(s.pass.value, q) && (q.skipped == s.pass.value.skipped || q.skipped == s.pass.value.skipped + {u})
  {
  }

  // What the answer to a delete call committed.
  function Answered(s: State, u: Uid, o: Outcome): State
    requires o in {Removed, Marked} ==> u in s.api
  {
    if o == Removed then Commit(s, Deleted(u, s.api[u].sb))
    else if o == Marked then Commit(s, Modified(u, s.api[u].sb.(deleting := true)))
    else s
  }

  lemma {:induction false} AnsweredKeeps(s: State, u: Uid, o: Outcome)
    requires Inv(s) && (o in {Removed, Marked} ==> u in s.api)
    ensures Inv(Answered(s, u, o)) && Owned(Answered(s, u, o).api) <= Owned(s.api)
  {
    if o == Removed {
      CommitKeeps(s, Deleted(u, s.api[u].sb));
    } else if o == Marked {
      CommitKeeps(s, Modified(u, s.api[u].sb.(deleting := true)));
    }
  }

  lemma {:induction false} UndeletedIs(s: State, u: Uid, o: Outcome)
    requires s.pass.Some? && u in s.pass.value.view && (o in {Removed, Marked} ==> u in s.api) && WellFormed(s.rec)
    ensures var t := Undeleted(s, u, o);
      && t.pass.Some? && t == WithPass(Answered(s, u, o).(rec := t.rec), t.pass.value)
      && WellFormed(t.rec) && Pending(t.rec) == Pending(s.rec)
  {
  }

  lemma {:induction false} UndeletedClean(s: State, u: Uid, o: Outcome)
    requires s.pass.Some? && u in s.pass.value.view && (o in {Removed, Marked} ==> u in s.api)
    requires s.pass.value.clean ==> s.pass.value.skipped !! Owned(s.api)
    requires Owned(Answered(s, u, o).api) <= Owned(s.api)
    ensures var q := Undeleted(s, u, o).pass.value; q.clean ==> q.skipped !! Owned(Answered(s, u, o).api)
  {
  }

  lemma {:induction false} DeleteDoneKeeps(s: State, u: Uid, o: Outcome)
    requires Inv(s) && s.pass.Some? && u in s.pass.value.inflight && !s.pass.value.stage.Creating?
    requires o in {Removed, Marked} ==> u in s.api
    ensures Inv(Undeleted(s, u, o))
  {
    AnsweredKeeps(s, u, o);
    UndeletedEdits(s, u, o);
    UndeletedClean(s, u, o);
    UndeletedIs(s, u, o);
    hide Inv, Undeleted;
    var t := Undeleted(s, u, o);
    PassEditKeeps(Answered(s, u, o), t.rec, t.pass.value);
  }

  // ----- The gate and the batch -----

  lemma {:induction false} OpenedPass(s: State, n: nat)
    requires Cursors(s) && InvPass(s) && Ready(s) && n <= s.pass.value.desired - Total(s.pass.value)
    ensures var q := s.pass.value.(stage := Creating(n, 0, {}, s.handled)); InvPass(WithPass(s, q))
  {
  }

  lemma {:induction false} GateOpens(s: State, n: nat)
    requires Inv(s) && Enabled(s, Gate(n)) && Open(s.rec, s.clock)
    ensures Inv(Gated(s, n))
  {
    OpenedPass(s, n);
    var t := WithPass(s, s.pass.value.(stage := Creating(n, 0, {}, s.handled)));
    assert InvLog(t) && InvOrigin(t);
    assert Gated(s, n) == t.(rec := Some(Record(n, {}, s.clock)));
  }

  lemma {:induction false} GateShut(s: State, n: nat)
    requires Inv(s) && Enabled(s, Gate(n)) && !Open(s.rec, s.clock)
    ensures Inv(Gated(s, n))
  {
    var q := s.pass.value.(stage := Trimming(0));
    assert Gated(s, n) == WithPass(s, q);
    PassOnly(s, q);
    TrimmingPass(s, WithPass(s, q));
  }

  lemma {:induction false} GateKeeps(s: State, n: nat)
    requires Inv(s) && Enabled(s, Gate(n))
    ensures Inv(Gated(s, n))
  {
    if Open(s.rec, s.clock) {
      GateOpens(s, n);
    } else {
      GateShut(s, n);
    }
  }

  function CountedMade(p: Pass, u: Uid): Pass
    requires p.stage.Creating?
  {
    p.(stage := p.stage.(tried := p.stage.tried + 1, made := p.stage.made + {u}))
  }

  lemma {:induction false} CreatePass(s: State, u: Uid)
    requires Cursors(s) && InvPass(s)
    requires s.pass.Some? && s.pass.value.stage.Creating? && s.pass.value.stage.tried < s.pass.value.stage.n
    requires u !in s.pass.value.view
    ensures InvPass(WithPass(Commit(s, Added(u, Sandbox(ThisPool, false, true))), CountedMade(s.pass.value, u)))
  {
    var p := s.pass.value;
    var e := Added(u, Sandbox(ThisPool, false, true));
    CommitSlices(s, e);
    assert Owned(Commit(s, e).api) <= Owned(s.api) + {u};
  }

  lemma {:induction false} CreateBooks(s: State, u: Uid)
    requires Cursors(s) && InvCount(s) && InvOrigin(s)
    requires s.pass.Some? && s.pass.value.stage.Creating? && u !in s.pass.value.stage.made
    ensures var t := WithPass(Commit(s, Added(u, Sandbox(ThisPool, false, true))), CountedMade(s.pass.value, u));
      InvCount(t) && InvOrigin(t)
  {
    var e := Added(u, Sandbox(ThisPool, false, true));
    CommitSlices(s, e);
    assert Owned(Commit(s, e).api) <= Owned(s.api) + {u};
  }

  lemma {:induction false} FreshIsUnlisted(s: State, u: Uid)
    requires InvLog(s) && s.pass.Some? && u !in Born(s.log)
    ensures u !in s.pass.value.view && u !in s.api && u !in OwnAdds(s.log)
  {
    BornGrows(s.log, s.listed);
    Prefix(s.log, s.listed);
    if u in s.pass.value.view {
      ReplayedWasBorn(s.log[..s.listed], u);
    }
    if u in s.api {
      ReplayedWasBorn(s.log, u);
    }
  }

  lemma {:induction false} CreateLog(s: State, u: Uid)
    requires InvLog(s) && s.pass.Some? && s.pass.value.stage.Creating? && u !in Born(s.log)
    ensures InvLog(WithPass(Commit(s, Added(u, Sandbox(ThisPool, false, true))), CountedMade(s.pass.value, u)))
  {
    CommitLog(s, Added(u, Sandbox(ThisPool, false, true)));
  }

  lemma {:induction false} CreateOneKeeps(s: State, u: Uid)
    requires Inv(s) && s.pass.Some? && s.pass.value.stage.Creating? && s.pass.value.stage.tried < s.pass.value.stage.n
    requires u !in Born(s.log)
    ensures Inv(Created(s, u, true))
  {
    FreshIsUnlisted(s, u);
    CreateLog(s, u);
    CreateBooks(s, u);
    CreatePass(s, u);
  }

  lemma {:induction false} OutsideStepKeeps(s: State, a: Step)
    requires Inv(s) && Enabled(s, a) && (a.EnvAdd? || a.EnvModify? || a.EnvDelete? || a.Tick? || a.Inform?)
    ensures Inv(Next(s, a))
  {
    match a
    case EnvAdd(u, sb) => CommitKeeps(s, Added(u, sb));
    case EnvModify(u, sb) => CommitKeeps(s, Modified(u, sb));
    case EnvDelete(u) => CommitKeeps(s, Deleted(u, s.api[u].sb));
    case _ =>
  }

  lemma {:induction false} FilterItemKeeps(s: State, a: Step)
    requires Inv(s) && a.FilterItem? && Enabled(s, a)
    ensures Inv(Next(s, a))
  {
    var v := VerdictOn(s, a.uid, a.stale);
    if v == DeleteStale {
      FilterDeleteKeeps(s, a);
    } else if v in {Relabel, Adopt} && a.ok {
      FilterUpdateKeeps(s, a.uid, a.stale);
    } else {
      FilterQuietKeeps(s, a.uid, a.stale, a.ok);
    }
  }

  lemma {:induction false} GradedPass(s: State, u: Uid, stuck: bool)
    requires Cursors(s) && InvPass(s) && s.pass.Some? && s.pass.value.stage.Grading?
    requires s.pass.value.inflight == {} && u in s.pass.value.stage.todo
    ensures InvPass(Graded(s, u, stuck))
  {
    var p, q := s.pass.value, Graded(s, u, stuck).pass.value;
    assert Seen(q) == Seen(p);
  }

  lemma {:induction false} GradeItemKeeps(s: State, u: Uid, stuck: bool)
    requires Inv(s) && s.pass.Some? && s.pass.value.stage.Grading?
    requires s.pass.value.inflight == {} && u in s.pass.value.stage.todo
    ensures Inv(Graded(s, u, stuck))
  {
    GradedPass(s, u, stuck);
    var t := Graded(s, u, stuck);
    PassAndRecord(s, t.rec, t.pass.value);
  }

  lemma {:induction false} SettleKeeps(s: State)
    requires Inv(s) && s.pass.Some? && s.pass.value.stage.Creating?
    ensures Inv(Settled(s))
  {
  }

  // A pass whose stage says nothing of members any more.
  lemma {:induction false} TrimmingPass(s: State, t: State)
    requires Cursors(s) && Cursors(t) && InvPass(s) && t.api == s.api && s.pass.Some? && t.pass.Some?
    requires t.pass.value.stage.Trimming? && t.pass.value.view == s.pass.value.view
    requires Seen(t.pass.value) <= Seen(s.pass.value) && Apart(t.pass.value)
    requires t.pass.value.skipped == s.pass.value.skipped && t.pass.value.clean == s.pass.value.clean
    ensures InvPass(t)
  {
  }

  lemma {:induction false} TrimGateKeeps(s: State, quota: nat)
    requires Inv(s) && Enabled(s, TrimGate(quota))
    ensures Inv(TrimGated(s, quota))
  {
    TrimmingPass(s, TrimGated(s, quota));
  }

  lemma {:induction false} TrimItemKeeps(s: State, u: Uid)
    requires Inv(s) && s.pass.Some? && s.pass.value.stage.Trimming? && s.pass.value.stage.quota > 0
    requires u in s.pass.value.active
    ensures Inv(Trimmed(s, u))
  {
    var t := Trimmed(s, u);
    assert Seen(t.pass.value) == Seen(s.pass.value);
    TrimmingPass(s, t);
    PassAndRecord(s, t.rec, t.pass.value);
  }

  lemma {:induction false} EndFilterKeeps(s: State)
    requires Inv(s) && Enabled(s, EndFilter)
    ensures Inv(Next(s, EndFilter))
  {
    PassOnly(s, s.pass.value.(stage := Grading(s.pass.value.active)));
  }

  lemma {:induction false} SkipCreateKeeps(s: State)
    requires Inv(s) && Enabled(s, SkipCreate)
    ensures Inv(Next(s, SkipCreate))
  {
    PassOnly(s, s.pass.value.(stage := Trimming(0)));
    TrimmingPass(s, Next(s, SkipCreate));
  }

  // A create that fails, and the end of the pass.
  lemma {:induction false} MoveOnKeeps(s: State, a: Step)
    requires Inv(s) && Enabled(s, a) && (a.EndPass? || (a.CreateOne? && !a.ok))
    ensures Inv(Next(s, a))
  {
  }

  lemma {:induction false} StepKeeps(s: State, a: Step)
    requires Inv(s) && Enabled(s, a)
    ensures Inv(Next(s, a))
  {
    if a.EnvAdd? || a.EnvModify? || a.EnvDelete? || a.Tick? || a.Inform? {
      OutsideStepKeeps(s, a);
    } else if a.Handle? {
      HandleKeeps(s);
    } else if a.List? {
      ListKeeps(s, a);
    } else if a.FilterItem? {
      FilterItemKeeps(s, a);
    } else if a.DeleteDone? {
      DeleteDoneKeeps(s, a.uid, a.outcome);
    } else if a.Gate? {
      GateKeeps(s, a.n);
    } else if a.CreateOne? && a.ok {
      CreateOneKeeps(s, a.uid);
    } else if a.GradeItem? {
      GradeItemKeeps(s, a.uid, a.stuck);
    } else if a.EndCreate? {
      SettleKeeps(s);
    } else if a.TrimGate? {
      TrimGateKeeps(s, a.quota);
    } else if a.TrimItem? {
      TrimItemKeeps(s, a.uid);
    } else if a.EndFilter? {
      EndFilterKeeps(s);
    } else if a.SkipCreate? {
      SkipCreateKeeps(s);
    } else {
      MoveOnKeeps(s, a);
    }
  }

  /** Safety over whole runs. */
  lemma {:induction false} RunKeeps(states: seq<State>, steps: seq<Step>, i: nat)
    requires IsRun(states, steps) && i < |states|
    ensures Inv(states[i])
  {
    if i == 0 {
      var s := states[0];
      assert s.log[s.handled..] == [];
      assert s.log[..s.listed] == s.log;
      forall u | u in Owned(s.api)
        ensures u in Born(s.log)
      {
        ReplayedWasBorn(s.log, u);
      }
    } else {
      RunKeeps(states, steps, i - 1);
      StepKeeps(states[i - 1], steps[i - 1]);
    }
  }
}
