/** What a pass makes of each listed Sandbox, and of each delete it issues, in
    terms of what the cache shows of it and what the server answers. */
module WarmPoolPass {
  import opened Common
  import opened Expectations
  import opened WarmPoolLog
  import opened WarmPoolProtocol
  import opened WarmPoolSafety

  // A deletion of this object was recorded no more than five minutes ago.
  predicate Going(rec: Option<Record>, u: Uid, now: int) {
    u != "" && rec.Some? && u in rec.value.deletions && now - rec.value.raisedAt <= 300_000_000_000
  }

  // Live in the cache, not another controller's, and not being deleted by this pool.
  predicate Eligible(s: State, u: Uid)
    requires s.pass.Some? && u in s.pass.value.view
  {
    var sb := s.pass.value.view[u].sb;
    !sb.deleting && !sb.owner.Foreign? && !(sb.owner.ThisPool? && Going(s.rec, u, s.clock))
  }

  // Out of date where the pool recreates, or with no controller: to be replaced.
  predicate Outmoded(s: State, u: Uid, stale: bool)
    requires s.pass.Some? && u in s.pass.value.view
  {
    var p := s.pass.value;
    Eligible(s, u) && stale && p.templateOk && (p.recreate || p.view[u].sb.owner.Orphan?)
  }

  // To be made the pool's own: it has no controller, or lacks the label.
  predicate Unclaimed(s: State, u: Uid, stale: bool)
    requires s.pass.Some? && u in s.pass.value.view
  {
    var sb := s.pass.value.view[u].sb;
    Eligible(s, u) && !Outmoded(s, u, stale) && (sb.owner.Orphan? || !sb.warm)
  }

  lemma {:induction false} VerdictIs(s: State, u: Uid, stale: bool)
    requires s.pass.Some? && u in s.pass.value.view
    ensures var v := VerdictOn(s, u, stale); var sb := s.pass.value.view[u].sb;
      && (v == CountTerminating <==> sb.owner.ThisPool? && (sb.deleting || Going(s.rec, u, s.clock)))
      && (v == DeleteStale <==> Outmoded(s, u, stale))
      && (v == Relabel || v == Adopt <==> Unclaimed(s, u, stale))
      && (v == Keep <==> Eligible(s, u) && !Outmoded(s, u, stale) && !Unclaimed(s, u, stale))
      && (Eligible(s, u) ==> !sb.deleting)
  {
  }

  lemma {:induction false} FilterStep(s: State, u: Uid, stale: bool, ok: bool)
    requires Cursors(s) && Enabled(s, FilterItem(u, stale, ok))
    ensures s.pass.Some? && s.pass.value.stage.Filtering? && s.pass.value.inflight == {} && u in s.pass.value.view
    ensures ok && VerdictOn(s, u, stale) in {Relabel, Adopt} ==> LockHolds(s, u)
    ensures Next(s, FilterItem(u, stale, ok)) == Filtered(s, u, stale, ok)
  {
  }

  /** The filter, exactly. A member that is going away is counted as such. An
      outmoded Sandbox is deleted, and the deletion recorded if it is a member.
      One without a controller or a label is written as a member, and counted
      if that succeeds, else skipped. Another member is counted. Everything
      else is left alone; and nothing else is written, recorded or deleted. */
  lemma {:induction false} FilterExact(s: State, u: Uid, stale: bool, ok: bool)
    requires Cursors(s) && Enabled(s, FilterItem(u, stale, ok))
    ensures var t := Next(s, FilterItem(u, stale, ok)); var p := s.pass.value; var sb := p.view[u].sb;
      t.pass.Some? && var q := t.pass.value;
      && q.terminating == p.terminating
           + (if sb.owner.ThisPool? && (sb.deleting || Going(s.rec, u, s.clock)) then {u} else {})
      && q.inflight == (if Outmoded(s, u, stale) then {u} else {})
      && t.rec == (if Outmoded(s, u, stale) && sb.owner.ThisPool? then WithDeletion(s.rec, u, s.clock) else s.rec)
      && t.log == s.log + (if Unclaimed(s, u, stale) && ok then [Modified(u, Sandbox(ThisPool, false, true))] else [])
      && q.skipped == p.skipped + (if Unclaimed(s, u, stale) && !ok then {u} else {})
      && q.active == p.active
           + (if Eligible(s, u) && !Outmoded(s, u, stale) && (Unclaimed(s, u, stale) ==> ok) then {u} else {})
      && q.stage == Filtering(p.stage.todo - {u}) && t.handled == s.handled && t.store == s.store && t.clock == s.clock
  {
    FilterStep(s, u, stale, ok);
    VerdictIs(s, u, stale);
    hide Next, Enabled, VerdictOn, Eligible, Outmoded, Unclaimed, Going, WithDeletion, Applied, LockHolds;
    var e := Modified(u, Sandbox(ThisPool, s.pass.value.view[u].sb.deleting, true));
    assert s.log + [] == s.log;
  }

  // The filter is over everything the cache shows, and grading over every active member.
  lemma {:induction false} NothingIsPassedOver(s: State, desired: int, templateOk: bool, recreate: bool)
    requires Cursors(s)
    ensures Enabled(s, List(desired, templateOk, recreate)) ==>
      var t := Next(s, List(desired, templateOk, recreate)); var shown := Replay(s.log[..s.store]);
      t.pass.Some? && t.pass.value.view == shown && t.pass.value.stage == Filtering(shown.Keys) && t.pass.value.desired == desired
    ensures Enabled(s, EndFilter) ==> Next(s, EndFilter).pass == Some(s.pass.value.(stage := Grading(s.pass.value.active)))
  {
  }

  /** Grading, exactly: a member stuck past its grace is taken out of the
      count, its deletion recorded and issued; any other stays. */
  lemma {:induction false} GradeExact(s: State, u: Uid, stuck: bool)
    requires Cursors(s) && Enabled(s, GradeItem(u, stuck))
    ensures var t := Next(s, GradeItem(u, stuck)); var p := s.pass.value;
      t.pass.Some? && var q := t.pass.value;
      && q.active == (if stuck then p.active - {u} else p.active) && q.inflight == (if stuck then {u} else {})
      && t.rec == (if stuck then WithDeletion(s.rec, u, s.clock) else s.rec)
      && t.log == s.log && q.stage == Grading(p.stage.todo - {u}) && q.terminating == p.terminating && q.skipped == p.skipped
  {
  }

  lemma {:induction false} AnswerStep(s: State, u: Uid, o: Outcome)
    requires Cursors(s) && Enabled(s, DeleteDone(u, o))
    ensures s.pass.Some? && u in s.pass.value.view && !s.pass.value.stage.Creating?
    ensures (o == Removed || o == Marked ==> u in s.api) && Next(s, DeleteDone(u, o)) == Undeleted(s, u, o)
  {
  }

  // What was deleted or marked is so on the server, and nothing else is written.
  lemma {:induction false} AnswerOnServer(s: State, u: Uid, o: Outcome)
    requires Cursors(s) && Enabled(s, DeleteDone(u, o))
    ensures var t := Next(s, DeleteDone(u, o));
      && (o == Removed ==> u !in t.api && |t.log| == |s.log| + 1)
      && (o == Marked ==> u in t.api && u in s.api && t.api[u].sb == s.api[u].sb.(deleting := true))
      && (o != Removed && o != Marked ==> t.log == s.log && t.api == s.api)
      && t.api - {u} == s.api - {u}
  {
    AnswerStep(s, u, o);
    hide Next, Enabled, WithoutDeletion;
  }

  // What the answer does to the record.
  lemma {:induction false} AnswerOnRecord(s: State, u: Uid, o: Outcome)
    requires Cursors(s) && Enabled(s, DeleteDone(u, o))
    ensures var t := Next(s, DeleteDone(u, o)); var p := s.pass.value;
      var done := o == Removed || o == Marked; var member := p.view[u].sb.owner.ThisPool?;
      t.rec == if !done && (member || !p.stage.Filtering?) then WithoutDeletion(s.rec, u) else s.rec
  {
    AnswerStep(s, u, o);
    hide Next, Enabled, WithoutDeletion, Applied;
  }

  /** The answer to a delete, exactly: after a success a recorded deletion
      stays recorded, and a member counts as going; after any other answer the
      record is rolled back, and a stuck member counts again. */
  lemma {:induction false} AnswerExact(s: State, u: Uid, o: Outcome)
    requires Cursors(s) && Enabled(s, DeleteDone(u, o))
    ensures var t := Next(s, DeleteDone(u, o)); var p := s.pass.value;
      var done := o == Removed || o == Marked; var member := p.view[u].sb.owner.ThisPool?;
      && t.rec == (if !done && (member || !p.stage.Filtering?) then WithoutDeletion(s.rec, u) else s.rec)
      && t.pass.Some? && var q := t.pass.value; var rest := p.(inflight := p.inflight - {u}, clean := q.clean);
      match p.stage
      case Filtering(_) =>
        q == if done && member then rest.(terminating := p.terminating + {u}) else rest.(skipped := p.skipped + {u})
      case Grading(_) => q == if done then rest.(terminating := p.terminating + {u}) else rest.(active := p.active + {u})
      case _ => q == rest
  {
    AnswerOnRecord(s, u, o);
    AnswerStep(s, u, o);
    hide Next, Enabled, WithoutDeletion, Applied, Commit;
  }

  /** The watch handler, exactly: the add event of a member lowers the pending
      creates by one, the delete event of a member ends its pending deletion,
      and nothing else changes the record. */
  lemma {:induction false} HandlerExact(s: State)
    requires Inv(s) && Enabled(s, Handle)
    ensures var t, e := Next(s, Handle), s.log[s.handled];
      && t == s.(handled := s.handled + 1, rec := t.rec)
      && Pending(t.rec) == (if e.Added? && e.sb.owner.ThisPool? && Pending(s.rec) > 0 then Pending(s.rec) - 1 else Pending(s.rec))
      && PendingDeletions(t.rec)
           == PendingDeletions(s.rec) - (if e.Deleted? && e.sb.owner.ThisPool? then {e.uid} else {})
  {
  }
}
