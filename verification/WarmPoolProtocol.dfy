/** The replenishment protocol of one warm pool: reconcile passes, serialized
    per pool, over a lagging informer, with watch-handler steps, other
    controllers and the clock interleaving at every API call.

    A step is one atomic action; a run is any sequence of enabled steps. The
    hypotheses of the model are the enabling conditions: only this controller
    makes Sandboxes the pool's, a failed create created nothing, and passes of
    one pool do not overlap. Everything else (staleness of the cache, failing
    writes, foreign edits, deletions, expiry) may happen at any point. */
module WarmPoolProtocol {
  import opened Common
  import opened Expectations
  import opened WarmPoolLog

  datatype Stage =
    | Filtering(todo: set<Uid>)
    | Grading(todo: set<Uid>)
    | Creating(n: nat, tried: nat, made: set<Uid>, heardAtGate: nat)
    | Trimming(quota: nat)

  /** One reconcile pass. view holds the listed objects, the informer's store
      at the List. skipped are the listed members the pass could not count, and
      clean says that this happened to no member that was really the pool's. */
  datatype Pass = Pass(
    desired: int,
    templateOk: bool,
    recreate: bool,
    view: Objects,
    active: set<Uid>,
    terminating: set<Uid>,
    skipped: set<Uid>,
    clean: bool,
    inflight: set<Uid>,
    stage: Stage)

  /** log: the API server's commits, api: the objects they left. store and handled: how far the informer
      store and the event handler got. listed: the store cursor at the latest
      List. */
  datatype State = State(
    log: seq<Event>,
    api: Objects,
    store: nat,
    handled: nat,
    rec: Option<Record>,
    clock: int,
    listed: nat,
    pass: Option<Pass>)

  datatype Outcome = Removed | Marked | NotFound | Refused

  datatype Step =
    | EnvAdd(uid: Uid, sb: Sandbox)
    | EnvModify(uid: Uid, sb: Sandbox)
    | EnvDelete(uid: Uid)
    | Tick(now: int)
    | Inform
    | Handle
    | List(desired: int, templateOk: bool, recreate: bool)
    | FilterItem(uid: Uid, stale: bool, ok: bool)
    | EndFilter
    | GradeItem(uid: Uid, stuck: bool)
    | DeleteDone(uid: Uid, outcome: Outcome)
    | SkipCreate
    | Gate(n: nat)
    | CreateOne(uid: Uid, ok: bool)
    | EndCreate
    | TrimGate(quota: nat)
    | TrimItem(uid: Uid)
    | EndPass

  // What the filter does with a listed Sandbox.
  datatype Verdict = CountTerminating | Ignore | DeleteStale | Relabel | Adopt | Keep

  function Classify(sb: Sandbox, pendingDeletion: bool, templateOk: bool, recreate: bool, stale: bool): Verdict {
    if sb.deleting then
      if sb.owner.ThisPool? then CountTerminating else Ignore
    else if sb.owner.ThisPool? && pendingDeletion then CountTerminating
    else if sb.owner.Foreign? then Ignore
    else if templateOk && (recreate || sb.owner.Orphan?) && stale then DeleteStale
    else if sb.owner.ThisPool? && !sb.warm then Relabel
    else if sb.owner.Orphan? then Adopt
    else Keep
  }

  function VerdictOn(s: State, u: Uid, stale: bool): Verdict
    requires s.pass.Some? && u in s.pass.value.view
  {
    var p := s.pass.value;
    Classify(p.view[u].sb, DeletionPending(s.rec, u, s.clock), p.templateOk, p.recreate, stale)
  }

  // An update of a listed object under the optimistic lock can succeed.
  predicate LockHolds(s: State, u: Uid)
    requires s.pass.Some? && u in s.pass.value.view
  {
    u in s.api && s.api[u].rev == s.pass.value.view[u].rev
  }

  predicate Ready(s: State) {
    s.pass.Some? && s.pass.value.stage.Grading? && s.pass.value.stage.todo == {} && s.pass.value.inflight == {}
  }

  function Total(p: Pass): int { |p.active| + |p.terminating| }

  ghost predicate Enabled(s: State, a: Step) {
    match a
    case EnvAdd(u, sb) => u !in Born(s.log) && !sb.owner.ThisPool?
    case EnvModify(u, sb) =>
      u in s.api && Leads(s.api[u].sb, sb) && (sb.owner.ThisPool? ==> s.api[u].sb.owner.ThisPool?)
    case EnvDelete(u) => u in s.api
    case Tick(now) => s.clock <= now
    case Inform => s.store < |s.log|
    case Handle => s.handled < s.store
    case List(_, _, _) => s.pass.None?
    case FilterItem(u, stale, ok) =>
      && s.pass.Some? && s.pass.value.stage.Filtering? && s.pass.value.inflight == {}
      && u in s.pass.value.stage.todo && u in s.pass.value.view
      && (ok && VerdictOn(s, u, stale) in {Relabel, Adopt} ==> LockHolds(s, u))
    case EndFilter =>
      s.pass.Some? && s.pass.value.stage.Filtering? && s.pass.value.stage.todo == {} && s.pass.value.inflight == {}
    case GradeItem(u, _) =>
      s.pass.Some? && s.pass.value.stage.Grading? && s.pass.value.inflight == {} && u in s.pass.value.stage.todo
    case DeleteDone(u, o) =>
      && s.pass.Some? && !s.pass.value.stage.Creating?
      && u in s.pass.value.inflight && u in s.pass.value.view
      && (o in {Removed, Marked} <==> (u in s.api && o != Refused))
    case SkipCreate => Ready(s)
    case Gate(n) => Ready(s) && s.pass.value.templateOk && 0 < n <= s.pass.value.desired - Total(s.pass.value)
    case CreateOne(u, ok) =>
      && s.pass.Some? && s.pass.value.stage.Creating? && s.pass.value.stage.tried < s.pass.value.stage.n
      && (ok ==> u !in Born(s.log))
    case EndCreate => s.pass.Some? && s.pass.value.stage.Creating?
    case TrimGate(quota) => Ready(s) && 0 < quota <= |s.pass.value.active| - s.pass.value.desired
    case TrimItem(u) =>
      s.pass.Some? && s.pass.value.stage.Trimming? && s.pass.value.stage.quota > 0 && u in s.pass.value.active && u in s.pass.value.view
    case EndPass => s.pass.Some? && s.pass.value.stage.Trimming? && s.pass.value.inflight == {}
  }

  function Commit(s: State, e: Event): State {
    s.(log := s.log + [e], api := Applied(s.api, e, |s.log|))
  }

  function WithPass(s: State, p: Pass): State {
    s.(pass := Some(p))
  }

  // The watch handler: owned adds and deletes are observed, nothing else.
  function Heard(s: State): State
    requires s.handled < |s.log|
  {
    var e := s.log[s.handled];
    var rec :=
      if e.Added? && e.sb.owner.ThisPool? then Lowered(s.rec, 1)
      else if e.Deleted? && e.sb.owner.ThisPool? then WithoutDeletion(s.rec, e.uid)
      else s.rec;
    s.(handled := s.handled + 1, rec := rec)
  }

  function Filtered(s: State, u: Uid, stale: bool, ok: bool): State
    requires s.pass.Some? && s.pass.value.stage.Filtering? && u in s.pass.value.view
    requires ok && VerdictOn(s, u, stale) in {Relabel, Adopt} ==> LockHolds(s, u)
  {
    var sb := s.pass.value.view[u].sb;
    var p := s.pass.value.(stage := Filtering(s.pass.value.stage.todo - {u}));
    match VerdictOn(s, u, stale)
    case CountTerminating => WithPass(s, p.(terminating := p.terminating + {u}))
    case Ignore => WithPass(s, p)
    case DeleteStale =>
      var rec := if sb.owner.ThisPool? then WithDeletion(s.rec, u, s.clock) else s.rec;
      WithPass(s.(rec := rec), p.(inflight := {u}))
    case Keep => WithPass(s, p.(active := p.active + {u}))
    case _ =>
      if ok then
        WithPass(Commit(s, Modified(u, Sandbox(ThisPool, sb.deleting, true))), p.(active := p.active + {u}))
      else
        WithPass(s, p.(skipped := p.skipped + {u}, clean := false))
  }

  function Graded(s: State, u: Uid, stuck: bool): State
    requires s.pass.Some? && s.pass.value.stage.Grading?
  {
    var p := s.pass.value.(stage := Grading(s.pass.value.stage.todo - {u}));
    if stuck then
      WithPass(s.(rec := WithDeletion(s.rec, u, s.clock)), p.(active := p.active - {u}, inflight := {u}))
    else
      WithPass(s, p)
  }

  /** The answer to a delete call. An expectation is recorded before the call
      (for members the cache shows as the pool's) and rolled back when the call
      fails. */
  function Undeleted(s: State, u: Uid, o: Outcome): State
    requires s.pass.Some? && u in s.pass.value.view
    requires o in {Removed, Marked} ==> u in s.api
  {
    var p := s.pass.value.(inflight := s.pass.value.inflight - {u});
    var mine := s.pass.value.view[u].sb.owner.ThisPool?;
    var done := o in {Removed, Marked};
    var s1 :=
      if o == Removed then Commit(s, Deleted(u, s.api[u].sb))
      else if o == Marked then Commit(s, Modified(u, s.api[u].sb.(deleting := true)))
      else s;
    var tracked := mine || !p.stage.Filtering?;
    var s2 := if tracked && !done then s1.(rec := WithoutDeletion(s1.rec, u)) else s1;
    var p1 :=
      if p.stage.Filtering? then
        if done && mine then p.(terminating := p.terminating + {u})
        else p.(skipped := p.skipped + {u},
                clean := p.clean && done && !s.api[u].sb.owner.ThisPool?)
      else if p.stage.Grading? then
        if done then p.(terminating := p.terminating + {u}) else p.(active := p.active + {u})
      else p;
    WithPass(s2, p1)
  }

  function Gated(s: State, n: nat): State
    requires s.pass.Some?
  {
    var p := s.pass.value;
    var s1 := s.(rec := Expecting(s.rec, n, s.clock));
    if n > 0 && Open(s.rec, s.clock) then
      WithPass(s1, p.(stage := Creating(n, 0, {}, s.handled)))
    else
      WithPass(s1, p.(stage := Trimming(0)))
  }

  function Created(s: State, u: Uid, ok: bool): State
    requires s.pass.Some? && s.pass.value.stage.Creating?
  {
    var p := s.pass.value;
    var st := p.stage.(tried := p.stage.tried + 1);
    if ok then
      WithPass(Commit(s, Added(u, Sandbox(ThisPool, false, true))), p.(stage := st.(made := st.made + {u})))
    else
      WithPass(s, p.(stage := st))
  }

  function Settled(s: State): State
    requires s.pass.Some? && s.pass.value.stage.Creating?
  {
    var p := s.pass.value;
    var lower := p.stage.n - |p.stage.made|;
    WithPass(s.(rec := if lower > 0 then Lowered(s.rec, lower) else s.rec), p.(stage := Trimming(0)))
  }

  function TrimGated(s: State, quota: nat): State
    requires s.pass.Some?
  {
    var open := Open(s.rec, s.clock);
    WithPass(s.(rec := Collected(s.rec, s.clock)),
             s.pass.value.(stage := Trimming(if open then quota else 0)))
  }

  function Trimmed(s: State, u: Uid): State
    requires s.pass.Some? && s.pass.value.stage.Trimming? && s.pass.value.stage.quota > 0
  {
    var p := s.pass.value;
    WithPass(s.(rec := WithDeletion(s.rec, u, s.clock)),
             p.(stage := Trimming(p.stage.quota - 1), active := p.active - {u}, inflight := p.inflight + {u}))
  }

  function Next(s: State, a: Step): State
    requires s.handled <= s.store <= |s.log|
    requires Enabled(s, a)
  {
    match a
    case EnvAdd(u, sb) => Commit(s, Added(u, sb))
    case EnvModify(u, sb) => Commit(s, Modified(u, sb))
    case EnvDelete(u) => Commit(s, Deleted(u, s.api[u].sb))
    case Tick(now) => s.(clock := now)
    case Inform => s.(store := s.store + 1)
    case Handle => Heard(s)
    case List(desired, templateOk, recreate) =>
      var view := Replay(s.log[..s.store]);
      WithPass(s.(listed := s.store),
               Pass(desired, templateOk, recreate, view, {}, {}, {}, true, {}, Filtering(view.Keys)))
    case FilterItem(u, stale, ok) => Filtered(s, u, stale, ok)
    case EndFilter => WithPass(s, s.pass.value.(stage := Grading(s.pass.value.active)))
    case GradeItem(u, stuck) => Graded(s, u, stuck)
    case DeleteDone(u, o) => Undeleted(s, u, o)
    case SkipCreate => WithPass(s, s.pass.value.(stage := Trimming(0)))
    case Gate(n) => Gated(s, n)
    case CreateOne(u, ok) => Created(s, u, ok)
    case EndCreate => Settled(s)
    case TrimGate(quota) => TrimGated(s, quota)
    case TrimItem(u) => Trimmed(s, u)
    case EndPass => s.(pass := None)
  }

  /** The step opens the gate on a record that timed out with creates still
      pending, and so forgets them. */
  predicate Forgets(s: State, a: Step) {
    (a.Gate? || a.TrimGate?) && Open(s.rec, s.clock) && Pending(s.rec) > 0
  }

  // The controller starts on a synced informer, with any members already there.
  ghost predicate Init(s: State) {
    && History(s.log) && s.api == Replay(s.log)
    && s.handled == s.store == s.listed == |s.log|
    && s.rec == None && s.pass == None
  }
}
