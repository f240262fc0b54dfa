/** The results about a warm pool's replenishment: the population bound with
    every window that widens it, the accounting of expectations, and when the
    gate reopens. */
module WarmPoolTheorems {
  import opened Common
  import opened Expectations
  import opened WarmPoolLog
  import opened WarmPoolProtocol
  import opened WarmPoolSafety
  import opened WarmPoolExact

  // ----- Accounting -----

  // Between moments j and i no step forgets creates that are still pending.
  ghost predicate Remembers(states: seq<State>, steps: seq<Step>, j: nat, i: nat)
    requires IsRun(states, steps) && j <= i < |states|
  {
    forall k | j <= k < i :: !Forgets(states[k], steps[k])
  }

  lemma {:induction false} ExactRun(states: seq<State>, steps: seq<Step>, j: nat, i: nat)
    requires IsRun(states, steps) && j <= i < |states| && Remembers(states, steps, j, i)
    requires Cursors(states[j]) && Quiet(states[j])
    ensures Inv(states[i]) && Exact(states[i])
    decreases i
  {
    hide Next, Exact, Enabled, Quiet, InvPass, InvCount, InvOrigin;
    RunKeeps(states, steps, i);
    if i == j {
      QuietIsExact(states[i]);
    } else {
      ExactRun(states, steps, j, i - 1);
      StepExact(states[i - 1], steps[i - 1]);
    }
  }

  /** Expectation accounting, in every run and under every interleaving of
      handler and batch. The pending count is never more than the pool's own
      creates whose add event is still to be handled, plus what a running batch
      has yet to produce. It is exactly that from every quiet moment on (the
      start is one) until a record times out with creates pending. */
  lemma {:induction false} AccountingIsExact(states: seq<State>, steps: seq<Step>, j: nat, i: nat)
    requires IsRun(states, steps) && j <= i < |states|
    ensures Cursors(states[j]) && Cursors(states[i]) && Outstanding(states[i]) >= 0
    ensures Pending(states[i].rec) <= CountOwnAdds(states[i].log[states[i].handled..]) + Outstanding(states[i])
    ensures Quiet(states[j]) && Remembers(states, steps, j, i) ==>
      Pending(states[i].rec) == CountOwnAdds(states[i].log[states[i].handled..]) + Outstanding(states[i])
    ensures Quiet(states[0])
  {
    RunKeeps(states, steps, j);
    RunKeeps(states, steps, i);
    assert states[0].log[states[0].handled..] == [];
    if Quiet(states[j]) && Remembers(states, steps, j, i) {
      ExactRun(states, steps, j, i);
    }
  }

  // ----- The population -----

  // Members the pass counted, and members added since its List that its batch did not make.
  function Counted(s: State): set<Uid>
    requires s.pass.Some?
  {
    s.pass.value.active + s.pass.value.terminating
  }

  function Late(s: State): set<Uid>
    requires s.pass.Some? && s.pass.value.stage.Creating? && s.listed <= |s.log|
  {
    OwnAdds(s.log[s.listed..]) - s.pass.value.stage.made
  }

  lemma {:induction false} SplitSize<T>(a: set<T>, b: set<T>)
    ensures |a * b| + |a - b| == |a|
  {
    assert a == a * b + (a - b);
  }

  lemma {:induction false} UnionSize<T>(a: set<T>, b: set<T>)
    requires a !! b
    ensures |a + b| == |a| + |b|
  {
  }

  // An own add after the List was not listed: no UID is added twice.
  lemma {:induction false} AddedOnce(log: seq<Event>, n: nat, u: Uid)
    requires History(log) && n <= |log| && u in Born(log[..n])
    ensures u !in OwnAdds(log[n..])
    decreases |log|
  {
    if n < |log| {
      var before, e := log[..|log| - 1], log[|log| - 1];
      assert log == before + [e];
      ReplayExtend(before, e);
      assert before[..n] == log[..n];
      AddedOnce(before, n, u);
      assert log[n..] == before[n..] + [e];
      OwnAddsExtend(before[n..], e);
      BornGrows(before, n);
    }
  }

  // Every member is one the pass saw, or an own add since its List.
  lemma {:induction false} MembersAreKnown(s: State)
    requires Inv(s) && s.pass.Some? && s.pass.value.stage.Creating?
    ensures Owned(s.api) <= Seen(s.pass.value) + OwnAdds(s.log[s.listed..])
    ensures Seen(s.pass.value) !! OwnAdds(s.log[s.listed..])
  {
    var p := s.pass.value;
    forall u | u in Owned(s.api) && u !in Seen(p)
      ensures u in OwnAdds(s.log[s.listed..])
    {
      MissingIsLater(s.log, s.listed, u);
      AddsSplit(s.log, s.listed);
    }
    forall u | u in Seen(p)
      ensures u !in OwnAdds(s.log[s.listed..])
    {
      Prefix(s.log, s.listed);
      ReplayedWasBorn(s.log[..s.listed], u);
      AddedOnce(s.log, s.listed, u);
    }
  }

  lemma {:induction false} AddsSplit(log: seq<Event>, n: nat)
    requires n <= |log|
    ensures OwnAdds(log) <= Born(log[..n]) + OwnAdds(log[n..])
  {
    forall u | u in OwnAdds(log)
      ensures u in Born(log[..n]) || u in OwnAdds(log[n..])
    {
      var i :| 0 <= i < |log| && OwnAdd(log[i]) && log[i].uid == u;
      if i < n {
        assert log[..n][i] == log[i];
      } else {
        assert log[n..][i - n] == log[i];
      }
    }
  }

  // Four disjoint sets that cover a fifth measure it.
  lemma {:induction false} SizeOfParts<T>(own: set<T>, a: set<T>, b: set<T>, c: set<T>, d: set<T>)
    requires a !! b && a !! c && a !! d && b !! c && b !! d && c !! d && own <= a + b + c + d
    ensures |own| == |a * own| + |b * own| + |c * own| + |d * own|
  {
    assert own == a * own + b * own + c * own + d * own;
    UnionSize(a * own, b * own);
    UnionSize(a * own + b * own, c * own);
    UnionSize(a * own + b * own + c * own, d * own);
  }

  lemma {:induction false} Partition(s: State)
    requires Inv(s) && s.pass.Some? && s.pass.value.stage.Creating?
    ensures var p := s.pass.value; var own := Owned(s.api); var made := p.stage.made;
      && |own| == |Counted(s) * own| + |p.skipped * own| + |made * own| + |Late(s) * own|
      && |Counted(s)| == Total(p)
  {
    var p := s.pass.value;
    MembersAreKnown(s);
    UnionSize(p.active, p.terminating);
    SizeOfParts(Owned(s.api), Counted(s), p.skipped, p.stage.made, Late(s));
  }

  /** The population during a batch, exactly, in every run: the members the
      pass counted that are still there, those it skipped, those the batch
      made, and those added since its List by an earlier batch. So the pool
      overshoots if and only if the skipped and the late ones outnumber what
      the batch may still create plus the counted and made ones that have
      gone. */
  lemma {:induction false} PopulationIsExact(states: seq<State>, steps: seq<Step>, i: nat)
    requires IsRun(states, steps) && i < |states|
    requires states[i].pass.Some? && states[i].pass.value.stage.Creating?
    ensures Cursors(states[i])
    ensures var s := states[i]; var p := s.pass.value; var own := Owned(s.api); var made := p.stage.made;
      && |own| == |Counted(s) * own| + |p.skipped * own| + |made * own| + |Late(s) * own|
      && p.desired - Total(p) - |made| >= 0
      && (|own| > p.desired <==>
           |p.skipped * own| + |Late(s) * own| > (p.desired - Total(p) - |made|) + |Counted(s) - own| + |made - own|)
  {
    RunKeeps(states, steps, i);
    var s := states[i];
    Partition(s);
    SplitSize(Counted(s), Owned(s.api));
    SplitSize(s.pass.value.stage.made, Owned(s.api));
  }

  // The events handled between the List of the running pass and its gate.
  function Window(s: State): seq<Event>
    requires s.pass.Some? && s.pass.value.stage.Creating? && s.pass.value.stage.heardAtGate <= |s.log|
  {
    if s.listed <= s.pass.value.stage.heardAtGate then s.log[s.listed..s.pass.value.stage.heardAtGate] else []
  }

  lemma {:induction false} AddsBetween(log: seq<Event>, a: nat, g: nat, u: Uid)
    requires a <= |log| && g <= |log| && u in OwnAdds(log[a..])
    ensures u in OwnAdds(log[g..]) || (a <= g && u in OwnAdds(log[a..g]))
  {
    var i :| 0 <= i < |log| - a && OwnAdd(log[a..][i]) && log[a..][i].uid == u;
    assert log[a + i] == log[a..][i];
    if g <= a + i {
      assert log[g..][a + i - g] == log[a + i];
    } else {
      assert log[a..g][i] == log[a + i];
    }
  }

  // While nothing was forgotten, only adds handled between List and gate are late.
  lemma {:induction false} LateIsInWindow(s: State)
    requires Inv(s) && s.pass.Some? && s.pass.value.stage.Creating? && Exact(s)
    ensures Late(s) <= OwnAdds(Window(s))
  {
    forall u | u in Late(s)
      ensures u in OwnAdds(Window(s))
    {
      AddsBetween(s.log, s.listed, s.pass.value.stage.heardAtGate, u);
    }
  }

  /** Pool population bound. In every run, at every moment of a create batch
      that no forgotten creates let through, the true pool-owned population is
      at most spec.replicas, plus the own adds handled between that pass's List
      and its gate, plus the listed members the pass could not count that are
      still the pool's. The last term vanishes for a clean pass. */
  lemma {:induction false} PopulationBound(states: seq<State>, steps: seq<Step>, j: nat, i: nat)
    requires IsRun(states, steps) && j <= i < |states|
    requires Cursors(states[j]) && Quiet(states[j]) && Remembers(states, steps, j, i)
    requires states[i].pass.Some? && states[i].pass.value.stage.Creating?
    ensures var s := states[i]; var p := s.pass.value;
      && p.stage.heardAtGate <= |s.log|
      && |Owned(s.api)| <= p.desired + CountOwnAdds(Window(s)) + |p.skipped * Owned(s.api)|
      && (p.clean ==> |Owned(s.api)| <= p.desired + CountOwnAdds(Window(s)))
  {
    ExactRun(states, steps, j, i);
    PopulationIsExact(states, steps, i);
    var s := states[i];
    LateIsInWindow(s);
    SubsetSize(Late(s) * Owned(s.api), OwnAdds(Window(s)));
    OwnAddsCounted(Window(s));
  }

  // ----- Deletion expectations -----

  function Gone(events: seq<Event>): set<Uid> {
    set i | 0 <= i < |events| && events[i].Deleted? :: events[i].uid
  }

  // Deleted after another controller had taken them over.
  function Lost(events: seq<Event>): set<Uid> {
    set i | 0 <= i < |events| && events[i].Deleted? && !events[i].sb.owner.ThisPool? :: events[i].uid
  }

  // Deletes under way for which an expectation was recorded.
  function Tracked(s: State): set<Uid> {
    if s.pass.None? then {}
    else
      var p := s.pass.value;
      set u | u in p.inflight && (!p.stage.Filtering? || (u in p.view && p.view[u].sb.owner.ThisPool?))
  }

  /** No expectation without an event to come: a pending deletion is under
      way, or its object is still there, or its delete event is unhandled,
      except for objects lost to another controller. */
  ghost predicate InvDeletions(s: State) {
    s.handled <= |s.log| && forall u | u in PendingDeletions(s.rec) ::
      u in Tracked(s) || u in s.api || u in Gone(s.log[s.handled..]) || u in Lost(s.log)
  }

  lemma {:induction false} DeletionsCommit(s: State, e: Event)
    requires s.handled <= |s.log| && InvDeletions(s)
    ensures InvDeletions(Commit(s, e))
    ensures e.Deleted? ==> e.uid in Gone(Commit(s, e).log[s.handled..])
  {
    var t := Commit(s, e);
    assert t.log[s.handled..] == s.log[s.handled..] + [e];
    GoneGrows(s.log[s.handled..], [e]);
    LostGrows(s.log, [e]);
    assert [e][0] == e;
    assert t.log[s.handled..][|s.log| - s.handled] == e;
  }

  lemma {:induction false} GoneGrows(a: seq<Event>, b: seq<Event>)
    ensures Gone(a + b) == Gone(a) + Gone(b)
  {
    forall u | u in Gone(a)
      ensures u in Gone(a + b)
    {
      var i :| 0 <= i < |a| && a[i].Deleted? && a[i].uid == u;
      assert (a + b)[i] == a[i];
    }
    forall u | u in Gone(b)
      ensures u in Gone(a + b)
    {
      var i :| 0 <= i < |b| && b[i].Deleted? && b[i].uid == u;
      assert (a + b)[|a| + i] == b[i];
    }
  }

  lemma {:induction false} LostGrows(a: seq<Event>, b: seq<Event>)
    ensures Lost(a) <= Lost(a + b)
  {
    forall u | u in Lost(a)
      ensures u in Lost(a + b)
    {
      var i :| 0 <= i < |a| && a[i].Deleted? && !a[i].sb.owner.ThisPool? && a[i].uid == u;
      assert (a + b)[i] == a[i];
    }
  }

  lemma {:induction false} DeletionsHandle(s: State)
    requires InvLog(s) && InvDeletions(s) && Enabled(s, Handle)
    ensures InvDeletions(Heard(s))
  {
    var e := s.log[s.handled];
    assert s.log[s.handled..] == [e] + s.log[s.handled + 1..];
    GoneGrows([e], s.log[s.handled + 1..]);
    if e.Deleted? && !e.sb.owner.ThisPool? {
      assert e.uid in Lost(s.log);
    }
    assert forall u | u in Gone([e]) :: u == e.uid && e.Deleted?;
  }

  lemma {:induction false} DeletionsAnswer(s: State, u: Uid, o: Outcome)
    requires Cursors(s) && InvDeletions(s)
    requires s.pass.Some? && u in s.pass.value.view
    requires o in {Removed, Marked} ==> u in s.api
    ensures InvDeletions(Undeleted(s, u, o))
  {
    if o == Removed {
      DeletionsCommit(s, Deleted(u, s.api[u].sb));
    } else if o == Marked {
      DeletionsCommit(s, Modified(u, s.api[u].sb.(deleting := true)));
    }
  }

  lemma {:induction false} DeletionsFilter(s: State, u: Uid, stale: bool, ok: bool)
    requires s.handled <= |s.log| && InvDeletions(s)
    requires s.pass.Some? && s.pass.value.stage.Filtering? && s.pass.value.inflight == {} && u in s.pass.value.view
    requires ok && VerdictOn(s, u, stale) in {Relabel, Adopt} ==> LockHolds(s, u)
    ensures InvDeletions(Filtered(s, u, stale, ok))
  {
    assert Tracked(s) == {};
    if VerdictOn(s, u, stale) in {Relabel, Adopt} && ok {
      DeletionsCommit(s, Modified(u, Sandbox(ThisPool, s.pass.value.view[u].sb.deleting, true)));
    }
  }

  lemma {:induction false} DeletionsOutside(s: State, a: Step)
    requires Inv(s) && InvDeletions(s) && Enabled(s, a)
    requires a.EnvAdd? || a.EnvModify? || a.EnvDelete? || (a.CreateOne? && a.ok)
    ensures InvDeletions(Next(s, a))
  {
    match a
    case EnvAdd(u, sb) => DeletionsCommit(s, Added(u, sb));
    case EnvModify(u, sb) => DeletionsCommit(s, Modified(u, sb));
    case EnvDelete(u) => DeletionsCommit(s, Deleted(u, s.api[u].sb));
    case CreateOne(u, _) => DeletionsCommit(s, Added(u, Sandbox(ThisPool, false, true)));
  }

  // A step of the pass that commits nothing and tracks what it records.
  lemma {:induction false} DeletionsFrame(s: State, t: State)
    requires InvDeletions(s) && t.log == s.log && t.api == s.api && t.handled == s.handled
    requires Tracked(s) <= Tracked(t) && PendingDeletions(t.rec) <= PendingDeletions(s.rec) + Tracked(t)
    ensures InvDeletions(t)
  {
  }

  lemma {:induction false} DeletionsTaken(s: State, a: Step)
    requires Cursors(s) && InvDeletions(s) && Enabled(s, a) && (a.GradeItem? || a.TrimItem?)
    ensures InvDeletions(Next(s, a))
  {
    DeletionsFrame(s, Next(s, a));
  }

  lemma {:induction false} DeletionsGated(s: State, a: Step)
    requires Cursors(s) && InvDeletions(s) && Enabled(s, a) && (a.Gate? || a.TrimGate? || a.EndCreate?)
    requires a.EndCreate? ==> s.pass.value.inflight == {}
    ensures InvDeletions(Next(s, a))
  {
    DeletionsFrame(s, Next(s, a));
  }

  lemma {:induction false} DeletionsStep(s: State, a: Step)
    requires Inv(s) && InvDeletions(s) && Enabled(s, a)
    ensures InvDeletions(Next(s, a))
  {
    if a.EnvAdd? || a.EnvModify? || a.EnvDelete? || (a.CreateOne? && a.ok) {
      DeletionsOutside(s, a);
    } else if a.Handle? {
      DeletionsHandle(s);
    } else if a.FilterItem? {
      DeletionsFilter(s, a.uid, a.stale, a.ok);
    } else if a.DeleteDone? {
      DeletionsAnswer(s, a.uid, a.outcome);
    } else if a.GradeItem? || a.TrimItem? {
      DeletionsTaken(s, a);
    } else if a.Gate? || a.TrimGate? || a.EndCreate? {
      DeletionsGated(s, a);
    }
  }

  lemma {:induction false} DeletionsRun(states: seq<State>, steps: seq<Step>, i: nat)
    requires IsRun(states, steps) && i < |states|
    ensures Inv(states[i]) && InvDeletions(states[i])
  {
    RunKeeps(states, steps, i);
    if i > 0 {
      DeletionsRun(states, steps, i - 1);
      DeletionsStep(states[i - 1], steps[i - 1]);
    }
  }

  /** The pool is not wedged. Once the handler has caught up between passes,
      whatever still blocks the gate is a deletion whose object is still
      there, or one of an object another controller took before it went. */
  lemma {:induction false} GateReopens(states: seq<State>, steps: seq<Step>, i: nat)
    requires IsRun(states, steps) && i < |states|
    requires var s := states[i]; s.pass.None? && s.handled == |s.log|
    ensures var s := states[i]; PendingDeletions(s.rec) <= s.api.Keys + Lost(s.log)
    ensures var s := states[i]; PendingDeletions(s.rec) !! s.api.Keys + Lost(s.log) ==> s.rec == None
  {
    DeletionsRun(states, steps, i);
    var s := states[i];
    assert s.log[s.handled..] == [];
    assert Gone([]) == {};
  }

  // ----- The windows are real -----

  // A run to s in which nothing is forgotten.
  ghost predicate Reaches(states: seq<State>, steps: seq<Step>, s: State) {
    IsRun(states, steps) && states[|steps|] == s && Remembers(states, steps, 0, |steps|)
  }

  lemma {:induction false} Extended(states: seq<State>, steps: seq<Step>, s: State, a: Step)
    returns (states': seq<State>, steps': seq<Step>)
    requires Reaches(states, steps, s) && Cursors(s) && Enabled(s, a) && !Forgets(s, a)
    ensures Reaches(states', steps', Next(s, a)) && steps' == steps + [a]
  {
    states', steps' := states + [Next(s, a)], steps + [a];
  }

  const MEMBER := Sandbox(ThisPool, false, true)

  lemma {:induction false} FirstGate() returns (states: seq<State>, steps: seq<Step>)
    ensures Reaches(states, steps,
              State([], map[], 0, 0, Some(Record(1, {}, 0)), 0, 0,
                    Some(Pass(1, true, false, map[], {}, {}, {}, true, {}, Creating(1, 0, {}, 0)))))
  {
    var s := State([], map[], 0, 0, None, 0, 0, None);
    states, steps := [s], [];
    states, steps := Extended(states, steps, s, List(1, true, false));
    s := Next(s, List(1, true, false));
    states, steps := Extended(states, steps, s, EndFilter);
    s := Next(s, EndFilter);
    states, steps := Extended(states, steps, s, Gate(1));
  }

  lemma {:induction false} FirstBatch() returns (states: seq<State>, steps: seq<Step>)
    ensures Reaches(states, steps,
              State([Added("a", MEMBER)], map["a" := Entry(MEMBER, 0)], 0, 0, Some(Record(1, {}, 0)), 0, 0, None))
  {
    states, steps := FirstGate();
    var s := State([], map[], 0, 0, Some(Record(1, {}, 0)), 0, 0,
                   Some(Pass(1, true, false, map[], {}, {}, {}, true, {}, Creating(1, 0, {}, 0))));
    states, steps := Extended(states, steps, s, CreateOne("a", true));
    s := Next(s, CreateOne("a", true));
    states, steps := Extended(states, steps, s, EndCreate);
    s := Next(s, EndCreate);
    states, steps := Extended(states, steps, s, EndPass);
  }

  // The add event is handled after the List of the next pass.
  lemma {:induction false} AddHeard() returns (states: seq<State>, steps: seq<Step>)
    ensures Reaches(states, steps,
              State([Added("a", MEMBER)], map["a" := Entry(MEMBER, 0)], 1, 1, None, 0, 0,
                    Some(Pass(1, true, false, map[], {}, {}, {}, true, {}, Filtering({})))))
  {
    states, steps := FirstBatch();
    var s := State([Added("a", MEMBER)], map["a" := Entry(MEMBER, 0)], 0, 0, Some(Record(1, {}, 0)), 0, 0, None);
    states, steps := Extended(states, steps, s, List(1, true, false));
    s := Next(s, List(1, true, false));
    assert s.pass.value.view == map[] && s.pass.value.stage.todo == {};
    states, steps := Extended(states, steps, s, Inform);
    s := Next(s, Inform);
    states, steps := Extended(states, steps, s, Handle);
  }

  /** The window between the List and the gate is real: a clean pass, nothing
      forgotten, and the population exceeds spec.replicas by the one own add
      handled in between. */
  lemma {:induction false} WindowIsReal() returns (states: seq<State>, steps: seq<Step>)
    ensures IsRun(states, steps) && Remembers(states, steps, 0, |steps|)
    ensures var s := states[|steps|];
      && s.pass.Some? && s.pass.value.clean
      && |Owned(s.api)| == s.pass.value.desired + 1
  {
    states, steps := AddHeard();
    var s := State([Added("a", MEMBER)], map["a" := Entry(MEMBER, 0)], 1, 1, None, 0, 0,
                   Some(Pass(1, true, false, map[], {}, {}, {}, true, {}, Filtering({}))));
    states, steps := Extended(states, steps, s, EndFilter);
    s := Next(s, EndFilter);
    states, steps := Extended(states, steps, s, Gate(1));
    s := Next(s, Gate(1));
    states, steps := Extended(states, steps, s, CreateOne("b", true));
    s := Next(s, CreateOne("b", true));
    assert Owned(s.api) == {"a", "b"};
  }

  const STRAY := Sandbox(Orphan, false, true)
  const SHOWN: Objects := map["a" := Entry(STRAY, 0)]

  // No write of the filter is refused and no event is handled.
  ghost predicate Smooth(steps: seq<Step>) {
    forall i | 0 <= i < |steps| ::
      && (steps[i].FilterItem? ==> steps[i].ok)
      && (steps[i].DeleteDone? ==> steps[i].outcome == Marked)
      && !steps[i].Handle?
  }

  lemma {:induction false} OrphanThere()
    ensures var log := [Added("a", STRAY)]; History(log) && Replay(log) == SHOWN
    ensures var log := [Added("a", STRAY), Modified("a", MEMBER)]; log[..1] == [Added("a", STRAY)]
  {
    var log := [Added("a", STRAY)];
    assert log == [] + [Added("a", STRAY)];
    ReplayExtend([], Added("a", STRAY));
    assert [Added("a", STRAY), Modified("a", MEMBER)][..1] == log;
  }

  lemma {:induction false} OrphanCounted() returns (states: seq<State>, steps: seq<Step>)
    ensures Smooth(steps)
    ensures Reaches(states, steps,
              State([Added("a", STRAY), Modified("a", MEMBER)], map["a" := Entry(MEMBER, 1)],
                    1, 1, None, 0, 1,
                    Some(Pass(1, true, false, SHOWN, {"a"}, {}, {}, true, {}, Filtering({})))))
  {
    OrphanThere();
    var s := State([Added("a", STRAY)], SHOWN, 1, 1, None, 0, 1, None);
    assert s.log[..1] == s.log;
    states, steps := [s], [];
    states, steps := Extended(states, steps, s, List(1, true, false));
    s := Next(s, List(1, true, false));
    states, steps := Extended(states, steps, s, FilterItem("a", false, true));
    s := Next(s, FilterItem("a", false, true));
    assert s.log == [Added("a", STRAY), Modified("a", MEMBER)];
    assert s.api == map["a" := Entry(MEMBER, 1)];
    assert s.pass.value.active == {"a"} && s.pass.value.stage.todo == {};
  }

  lemma {:induction false} OrphanGraded() returns (states: seq<State>, steps: seq<Step>)
    ensures Smooth(steps)
    ensures Reaches(states, steps,
              State([Added("a", STRAY), Modified("a", MEMBER)], map["a" := Entry(MEMBER, 1)], 1, 1, None, 0, 1,
                    Some(Pass(1, true, false, SHOWN, {"a"}, {}, {}, true, {}, Grading({})))))
  {
    states, steps := OrphanCounted();
    var s := State([Added("a", STRAY), Modified("a", MEMBER)], map["a" := Entry(MEMBER, 1)], 1, 1, None, 0, 1,
                   Some(Pass(1, true, false, SHOWN, {"a"}, {}, {}, true, {}, Filtering({}))));
    states, steps := Extended(states, steps, s, EndFilter);
    s := Next(s, EndFilter);
    states, steps := Extended(states, steps, s, GradeItem("a", false));
    s := Next(s, GradeItem("a", false));
    assert s.pass.value.stage.todo == {};
  }

  // A first pass adopted an orphan; the informer has yet to see that.
  lemma {:induction false} OrphanAdopted() returns (states: seq<State>, steps: seq<Step>)
    ensures Smooth(steps)
    ensures Reaches(states, steps,
              State([Added("a", STRAY), Modified("a", MEMBER)], map["a" := Entry(MEMBER, 1)],
                    1, 1, None, 0, 1, None))
  {
    states, steps := OrphanGraded();
    var s := State([Added("a", STRAY), Modified("a", MEMBER)], map["a" := Entry(MEMBER, 1)], 1, 1, None, 0, 1,
                   Some(Pass(1, true, false, SHOWN, {"a"}, {}, {}, true, {}, Grading({}))));
    states, steps := Extended(states, steps, s, SkipCreate);
    s := Next(s, SkipCreate);
    states, steps := Extended(states, steps, s, EndPass);
  }

  lemma {:induction false} OrphanListed() returns (states: seq<State>, steps: seq<Step>)
    ensures Smooth(steps)
    ensures Reaches(states, steps,
              State([Added("a", STRAY), Modified("a", MEMBER)], map["a" := Entry(MEMBER, 1)], 1, 1, None, 0, 1,
                    Some(Pass(1, true, false, SHOWN, {}, {}, {}, true, {}, Filtering({"a"})))))
  {
    states, steps := OrphanAdopted();
    OrphanThere();
    var s := State([Added("a", STRAY), Modified("a", MEMBER)], map["a" := Entry(MEMBER, 1)], 1, 1, None, 0, 1, None);
    states, steps := Extended(states, steps, s, List(1, true, false));
    assert SHOWN.Keys == {"a"};
  }

  lemma {:induction false} OrphanInFlight() returns (states: seq<State>, steps: seq<Step>)
    ensures Smooth(steps)
    ensures Reaches(states, steps,
              State([Added("a", STRAY), Modified("a", MEMBER)], map["a" := Entry(MEMBER, 1)], 1, 1, None, 0, 1,
                    Some(Pass(1, true, false, SHOWN, {}, {}, {}, true, {"a"}, Filtering({})))))
  {
    states, steps := OrphanListed();
    var s := State([Added("a", STRAY), Modified("a", MEMBER)], map["a" := Entry(MEMBER, 1)], 1, 1, None, 0, 1,
                   Some(Pass(1, true, false, SHOWN, {}, {}, {}, true, {}, Filtering({"a"}))));
    states, steps := Extended(states, steps, s, FilterItem("a", true, true));
    assert {"a"} - {"a"} == {};
  }

  // The next pass deletes it as a stale orphan and does not count it.
  lemma {:induction false} OrphanDeleted() returns (states: seq<State>, steps: seq<Step>)
    ensures Smooth(steps)
    ensures Reaches(states, steps,
              State([Added("a", STRAY), Modified("a", MEMBER), Modified("a", MEMBER.(deleting := true))],
                    map["a" := Entry(MEMBER.(deleting := true), 2)],
                    1, 1, None, 0, 1,
                    Some(Pass(1, true, false, SHOWN, {}, {}, {"a"}, false, {}, Filtering({})))))
  {
    states, steps := OrphanInFlight();
    var s := State([Added("a", STRAY), Modified("a", MEMBER)], map["a" := Entry(MEMBER, 1)], 1, 1, None, 0, 1,
                   Some(Pass(1, true, false, SHOWN, {}, {}, {}, true, {"a"}, Filtering({}))));
    states, steps := Extended(states, steps, s, DeleteDone("a", Marked));
    s := Next(s, DeleteDone("a", Marked));
    assert s.log == [Added("a", STRAY), Modified("a", MEMBER), Modified("a", MEMBER.(deleting := true))];
    assert s.api == map["a" := Entry(MEMBER.(deleting := true), 2)];
    assert s.pass.value.skipped == {"a"} && s.pass.value.inflight == {};
  }

  // Nothing is counted, so the gate lets a create through.
  lemma {:induction false} OrphanReplaced() returns (states: seq<State>, steps: seq<Step>)
    ensures Smooth(steps)
    ensures Reaches(states, steps,
              State([Added("a", STRAY), Modified("a", MEMBER), Modified("a", MEMBER.(deleting := true))],
                    map["a" := Entry(MEMBER.(deleting := true), 2)],
                    1, 1, Some(Record(1, {}, 0)), 0, 1,
                    Some(Pass(1, true, false, SHOWN, {}, {}, {"a"}, false, {}, Creating(1, 0, {}, 1)))))
  {
    states, steps := OrphanDeleted();
    var s := State([Added("a", STRAY), Modified("a", MEMBER), Modified("a", MEMBER.(deleting := true))],
                   map["a" := Entry(MEMBER.(deleting := true), 2)], 1, 1, None, 0, 1,
                   Some(Pass(1, true, false, SHOWN, {}, {}, {"a"}, false, {}, Filtering({}))));
    states, steps := Extended(states, steps, s, EndFilter);
    s := Next(s, EndFilter);
    states, steps := Extended(states, steps, s, Gate(1));
  }

  /** So is the other window: with no own add handled and no write refused, a
      cache that still shows an adopted member as an orphan lets the pass
      delete it uncounted, and the population exceeds spec.replicas while that
      deletion is under way. */
  lemma {:induction false} StaleOrphanIsReal() returns (states: seq<State>, steps: seq<Step>)
    ensures IsRun(states, steps) && Remembers(states, steps, 0, |steps|) && Smooth(steps)
    ensures var s := states[|steps|];
      && s.pass.Some? && !s.pass.value.clean
      && |Owned(s.api)| == s.pass.value.desired + 1
  {
    states, steps := OrphanReplaced();
    var s := State([Added("a", STRAY), Modified("a", MEMBER), Modified("a", MEMBER.(deleting := true))],
                   map["a" := Entry(MEMBER.(deleting := true), 2)], 1, 1, Some(Record(1, {}, 0)), 0, 1,
                   Some(Pass(1, true, false, SHOWN, {}, {}, {"a"}, false, {}, Creating(1, 0, {}, 1))));
    states, steps := Extended(states, steps, s, CreateOne("b", true));
    s := Next(s, CreateOne("b", true));
    assert Owned(s.api) == {"a", "b"};
  }
}
