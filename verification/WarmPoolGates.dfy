/** The two gates of a pass: creating and trimming go ahead if and only if
    nothing of the pool is outstanding, or what is has timed out; and a batch
    is then made or trimmed in full, and never more than was worked out. */
module WarmPoolGates {
  import opened Common
  import opened Expectations
  import opened WarmPoolLog
  import opened WarmPoolProtocol
  import opened WarmPoolSafety
  import opened WarmPoolExact
  import opened WarmPoolTheorems

  // No create and no deletion is pending, or the record is more than five minutes old.
  predicate MayPass(rec: Option<Record>, now: int) {
    rec.None? || Clear(rec.value) || now - rec.value.raisedAt > 300_000_000_000
  }

  // ----- What a gate lets through -----

  /** The trimming gate, exactly: after it an active member can be trimmed if
      and only if the record lets the pass through. */
  lemma {:induction false} TrimGateExact(s: State, quota: nat, u: Uid)
    requires Cursors(s) && Enabled(s, TrimGate(quota))
    ensures var t := Next(s, TrimGate(quota));
      && (Enabled(t, TrimItem(u)) <==> u in s.pass.value.active && u in s.pass.value.view && MayPass(s.rec, s.clock))
      && (MayPass(s.rec, s.clock) ==> t.pass.value.stage.quota == quota && t.rec == None)
      && (!MayPass(s.rec, s.clock) ==> t.rec == s.rec)
  {
  }

  /** The creating gate, exactly: after it a Sandbox can be created if and only
      if the record lets the pass through, and all of the batch is pending. */
  lemma {:induction false} CreateGateExact(s: State, n: nat, u: Uid)
    requires Cursors(s) && Enabled(s, Gate(n))
    ensures var t := Next(s, Gate(n));
      && (Enabled(t, CreateOne(u, true)) <==> u !in Born(s.log) && MayPass(s.rec, s.clock))
      && (MayPass(s.rec, s.clock) ==> t.rec == Some(Record(n, {}, s.clock)) && t.pass.value.stage.n == n)
      && (!MayPass(s.rec, s.clock) ==> t.rec == s.rec)
  {
  }

  // ----- Whole batches -----

  ghost predicate Distinct(us: seq<Uid>) {
    forall i, j | 0 <= i < j < |us| :: us[i] != us[j]
  }

  // The state after these members are trimmed one after another.
  ghost predicate Trims(s: State, us: seq<Uid>, t: State)
    decreases |us|
  {
    if us == [] then t == s
    else Cursors(s) && Enabled(s, TrimItem(us[0])) && Trims(Next(s, TrimItem(us[0])), us[1..], t)
  }

  lemma {:induction false} TrimOne(s: State, us: seq<Uid>)
    requires Cursors(s) && us != [] && Distinct(us) && s.pass.Some? && s.pass.value.stage.Trimming?
    requires |us| <= s.pass.value.stage.quota
    requires forall i | 0 <= i < |us| :: us[i] != "" && us[i] in s.pass.value.active && us[i] in s.pass.value.view
    ensures Enabled(s, TrimItem(us[0]))
    ensures var t := Next(s, TrimItem(us[0]));
      && Cursors(t) && t.pass.Some? && t.pass.value.stage == Trimming(s.pass.value.stage.quota - 1)
      && Distinct(us[1..]) && t.pass.value.view == s.pass.value.view
      && (forall i | 0 <= i < |us[1..]| ::
            us[1..][i] != "" && us[1..][i] in t.pass.value.active && us[1..][i] in t.pass.value.view)
      && PendingDeletions(t.rec) == PendingDeletions(s.rec) + {us[0]}
      && t.pass.value.inflight == s.pass.value.inflight + {us[0]} && t.pass.value.active == s.pass.value.active - {us[0]}
  {
    assert forall i | 0 <= i < |us[1..]| :: us[1..][i] == us[i + 1];
  }

  lemma {:induction false} TrimAll(s: State, us: seq<Uid>) returns (t: State)
    requires Cursors(s) && Distinct(us) && s.pass.Some? && s.pass.value.stage.Trimming?
    requires |us| <= s.pass.value.stage.quota
    requires forall i | 0 <= i < |us| :: us[i] != "" && us[i] in s.pass.value.active && us[i] in s.pass.value.view
    ensures Trims(s, us, t) && t.pass.Some?
    ensures PendingDeletions(t.rec) == PendingDeletions(s.rec) + set u | u in us
    ensures t.pass.value.inflight == s.pass.value.inflight + set u | u in us
    ensures t.pass.value.active == s.pass.value.active - set u | u in us
    decreases |us|
  {
    if us == [] {
      t := s;
    } else {
      TrimOne(s, us);
      t := TrimAll(Next(s, TrimItem(us[0])), us[1..]);
      assert us == [us[0]] + us[1..];
      assert (set u | u in us) == {us[0]} + set u | u in us[1..];
    }
  }

  /** With nothing outstanding, or an outdated record, the whole quota is
      granted: any members up to that many can be trimmed, and every one of
      them is then recorded and being deleted. */
  lemma {:induction false} TrimIsGranted(s: State, quota: nat, us: seq<Uid>) returns (t: State)
    requires Cursors(s) && Enabled(s, TrimGate(quota)) && MayPass(s.rec, s.clock)
    requires Distinct(us) && |us| <= quota
    requires forall i | 0 <= i < |us| :: us[i] != "" && us[i] in s.pass.value.active && us[i] in s.pass.value.view
    ensures Trims(Next(s, TrimGate(quota)), us, t) && t.pass.Some?
    ensures PendingDeletions(t.rec) == (set u | u in us)
    ensures t.pass.value.active == s.pass.value.active - set u | u in us
    ensures forall u | u in us :: u in t.pass.value.inflight
  {
    var gated := Next(s, TrimGate(quota));
    TrimGateExact(s, quota, "");
    t := TrimAll(gated, us);
  }

  ghost predicate Creates(s: State, us: seq<Uid>, t: State)
    decreases |us|
  {
    if us == [] then t == s
    else Cursors(s) && Enabled(s, CreateOne(us[0], true)) && Creates(Next(s, CreateOne(us[0], true)), us[1..], t)
  }

  lemma {:induction false} CreateAll(s: State, us: seq<Uid>) returns (t: State)
    requires Cursors(s) && Distinct(us) && s.pass.Some? && s.pass.value.stage.Creating?
    requires |us| <= s.pass.value.stage.n - s.pass.value.stage.tried
    requires forall i | 0 <= i < |us| :: us[i] !in Born(s.log)
    ensures Creates(s, us, t) && |t.log| == |s.log| + |us| && s.log <= t.log && t.rec == s.rec
    ensures forall i | 0 <= i < |us| :: t.log[|s.log| + i] == Added(us[i], Sandbox(ThisPool, false, true))
    decreases |us|
  {
    if us == [] {
      t := s;
    } else {
      var next := Next(s, CreateOne(us[0], true));
      assert forall i | 0 <= i < |us[1..]| :: us[1..][i] == us[i + 1];
      BornOneMore(s.log, us[0]);
      t := CreateAll(next, us[1..]);
      assert forall i | 0 < i < |us| :: t.log[|s.log| + i] == t.log[|next.log| + (i - 1)] && us[i] == us[1..][i - 1];
    }
  }

  lemma {:induction false} BornOneMore(log: seq<Event>, u: Uid)
    ensures Born(log + [Added(u, Sandbox(ThisPool, false, true))]) == Born(log) + {u}
  {
    var more := log + [Added(u, Sandbox(ThisPool, false, true))];
    assert more[|log|].uid == u;
    assert forall i | 0 <= i < |log| :: more[i] == log[i];
  }

  /** With nothing outstanding, or an outdated record, a whole batch can be
      created, for any new names: the log then ends with those members, and all
      of them are pending. */
  lemma {:induction false} CreateIsGranted(s: State, us: seq<Uid>) returns (t: State)
    requires Cursors(s) && Enabled(s, Gate(|us|)) && MayPass(s.rec, s.clock)
    requires Distinct(us) && forall i | 0 <= i < |us| :: us[i] !in Born(s.log)
    ensures Creates(Next(s, Gate(|us|)), us, t) && t.rec == Some(Record(|us|, {}, s.clock))
    ensures |t.log| == |s.log| + |us| && s.log <= t.log
    ensures forall i | 0 <= i < |us| :: t.log[|s.log| + i] == Added(us[i], Sandbox(ThisPool, false, true))
  {
    CreateGateExact(s, |us|, "");
    t := CreateAll(Next(s, Gate(|us|)), us);
  }

  // ----- Over whole runs -----

  function CountTrims(steps: seq<Step>): nat {
    if steps == [] then 0
    else CountTrims(steps[..|steps| - 1]) + if steps[|steps| - 1].TrimItem? then 1 else 0
  }

  // The pass that stands at j still runs at i.
  ghost predicate SamePass(states: seq<State>, j: nat, i: nat)
    requires j <= i < |states|
  {
    forall k | j <= k <= i :: states[k].pass.Some?
  }

  // Only the gate gives a trimming pass its quota, and only trimming uses it up.
  lemma {:induction false} QuotaAtGate(s: State, quota: nat)
    requires Cursors(s) && Enabled(s, TrimGate(quota))
    ensures s.pass.Some?
    ensures var t := Next(s, TrimGate(quota));
      && t.pass.Some? && t.pass.value == s.pass.value.(stage := t.pass.value.stage) && t.pass.value.stage.Trimming?
      && (t.pass.value.stage.quota > 0 ==>
            MayPass(s.rec, s.clock) && t.pass.value.stage.quota <= |s.pass.value.active| - s.pass.value.desired)
  {
  }

  lemma {:induction false} QuotaAtTrim(s: State, u: Uid)
    requires Cursors(s) && Enabled(s, TrimItem(u))
    ensures var t := Next(s, TrimItem(u));
      && t.pass.Some? && t.pass.value.desired == s.pass.value.desired && t.pass.value.active <= s.pass.value.active
      && t.pass.value.stage == Trimming(s.pass.value.stage.quota - 1)
  {
  }

  lemma {:induction false} TrimmingNow(s: State, u: Uid)
    requires Cursors(s) && Enabled(s, TrimItem(u))
    ensures s.pass.Some? && s.pass.value.stage.Trimming? && s.pass.value.stage.quota > 0 && u in s.pass.value.active
  {
  }

  lemma {:induction false} QuotaElsewhere(s: State, a: Step)
    requires Cursors(s) && Enabled(s, a) && !a.TrimGate? && !a.TrimItem?
    requires var t := Next(s, a); t.pass.Some? && t.pass.value.stage.Trimming? && t.pass.value.stage.quota > 0
    ensures s.pass.Some? && Next(s, a).pass.value.desired == s.pass.value.desired
    ensures Next(s, a).pass.value.active == s.pass.value.active && Next(s, a).pass.value.stage == s.pass.value.stage
  {
    hide Classify, Replay, Applied, Lowered, WithDeletion, WithoutDeletion, Expecting, Collected;
  }

  // The gate that a trimming pass went through, and what it has trimmed since.
  lemma {:induction false} GateBehind(states: seq<State>, steps: seq<Step>, i: nat) returns (j: nat)
    requires IsRun(states, steps) && i < |states|
    requires states[i].pass.Some? && states[i].pass.value.stage.Trimming? && states[i].pass.value.stage.quota > 0
    ensures j < i && steps[j].TrimGate? && SamePass(states, j, i) && MayPass(states[j].rec, states[j].clock)
    ensures states[i].pass.value.active <= states[j].pass.value.active
    ensures states[i].pass.value.desired == states[j].pass.value.desired
    ensures CountTrims(steps[j..i]) + states[i].pass.value.stage.quota
         <= |states[j].pass.value.active| - states[j].pass.value.desired
  {
    hide Next, Enabled, MayPass;
    var s, a := states[i - 1], steps[i - 1];
    assert Cursors(s) && Enabled(s, a) && states[i - 1 + 1] == Next(s, a);
    if a.TrimGate? {
      QuotaAtGate(s, a.quota);
      j := i - 1;
      assert steps[j..i][..0] == [] && steps[j..i][0] == a;
    } else {
      if a.TrimItem? {
        assert Enabled(s, TrimItem(a.uid)) && a == TrimItem(a.uid);
        QuotaAtTrim(s, a.uid);
        TrimmingNow(s, a.uid);
      } else {
        QuotaElsewhere(s, a);
      }
      j := GateBehind(states, steps, i - 1);
      assert steps[j..i][..i - 1 - j] == steps[j..i - 1] && steps[j..i][i - 1 - j] == a;
    }
  }

  /** No healthy member is deleted on a guess. In every run, a member is
      trimmed only by a pass at whose gate no create and no deletion of the
      pool was pending, or the record was more than five minutes old; the
      member was active then; and the pass trims no more than its active
      members exceeded the desired number by. */
  lemma {:induction false} TrimIsGated(states: seq<State>, steps: seq<Step>, i: nat) returns (j: nat)
    requires IsRun(states, steps) && i < |steps| && steps[i].TrimItem?
    ensures j < i && steps[j].TrimGate? && SamePass(states, j, i) && MayPass(states[j].rec, states[j].clock)
    ensures steps[i].uid in states[j].pass.value.active
    ensures CountTrims(steps[j..i + 1]) <= |states[j].pass.value.active| - states[j].pass.value.desired
  {
    var s, a := states[i], steps[i];
    assert Cursors(s) && Enabled(s, a) && a == TrimItem(a.uid);
    hide Next, Enabled, MayPass;
    TrimmingNow(s, a.uid);
    j := GateBehind(states, steps, i);
    assert steps[j..i + 1][..i - j] == steps[j..i] && steps[j..i + 1][i - j] == a;
  }

  /** And what the gate saw is true of the log: unless the record had timed
      out, or creates were forgotten since a quiet moment, every create of the
      pool's own was handled when a trimming pass went through. */
  lemma {:induction false} TrimIsInformed(states: seq<State>, steps: seq<Step>, q: nat, i: nat) returns (j: nat)
    requires IsRun(states, steps) && i < |steps| && steps[i].TrimItem?
    ensures j < i && steps[j].TrimGate? && SamePass(states, j, i) && Cursors(states[j])
    ensures q <= j && Cursors(states[q]) && Quiet(states[q]) && Remembers(states, steps, q, j)
         && !(states[j].rec.Some? && states[j].clock - states[j].rec.value.raisedAt > 300_000_000_000)
         ==> CountOwnAdds(states[j].log[states[j].handled..]) == 0
  {
    j := TrimIsGated(states, steps, i);
    RunKeeps(states, steps, j);
    if q <= j && Cursors(states[q]) && Quiet(states[q]) && Remembers(states, steps, q, j) {
      ExactRun(states, steps, q, j);
      assert Enabled(states[j], steps[j]);
    }
  }

  // ----- Creating -----

  function CountCreates(steps: seq<Step>): nat {
    if steps == [] then 0
    else CountCreates(steps[..|steps| - 1]) + if steps[|steps| - 1].CreateOne? then 1 else 0
  }

  // Only the gate starts a batch, and only creating moves it on.
  lemma {:induction false} BatchAtGate(s: State, n: nat)
    requires Cursors(s) && Enabled(s, Gate(n))
    ensures s.pass.Some? && s.pass.value.templateOk && n <= s.pass.value.desired - Total(s.pass.value)
    ensures var t := Next(s, Gate(n));
      && t.pass.Some?
      && (t.pass.value.stage.Creating? ==> MayPass(s.rec, s.clock) && t.pass.value.stage.n == n && t.pass.value.stage.tried == 0)
  {
  }

  lemma {:induction false} BatchAtCreate(s: State, u: Uid, ok: bool)
    requires Cursors(s) && Enabled(s, CreateOne(u, ok))
    ensures s.pass.Some? && s.pass.value.stage.Creating? && s.pass.value.stage.tried < s.pass.value.stage.n
    ensures var t := Next(s, CreateOne(u, ok));
      && t.pass.Some? && t.pass.value.stage.Creating? && t.pass.value.stage.n == s.pass.value.stage.n
      && t.pass.value.stage.tried == s.pass.value.stage.tried + 1
  {
  }

  lemma {:induction false} BatchElsewhere(s: State, a: Step)
    requires Cursors(s) && Enabled(s, a) && !a.Gate? && !a.CreateOne?
    requires var t := Next(s, a); t.pass.Some? && t.pass.value.stage.Creating?
    ensures s.pass.Some? && Next(s, a).pass.value.stage == s.pass.value.stage
  {
    hide Classify, Replay, Applied, Lowered, WithDeletion, WithoutDeletion, Expecting, Collected;
  }

  // The gate that a batch went through, and how far it is.
  lemma {:induction false} BatchBehind(states: seq<State>, steps: seq<Step>, i: nat) returns (j: nat)
    requires IsRun(states, steps) && i < |states| && states[i].pass.Some? && states[i].pass.value.stage.Creating?
    ensures j < i && steps[j].Gate? && SamePass(states, j, i) && MayPass(states[j].rec, states[j].clock)
    ensures states[j].pass.value.templateOk
    ensures states[i].pass.value.stage.n <= states[j].pass.value.desired - Total(states[j].pass.value)
    ensures CountCreates(steps[j..i]) == states[i].pass.value.stage.tried
  {
    hide Next, Enabled, MayPass, Total;
    var s, a := states[i - 1], steps[i - 1];
    assert Cursors(s) && Enabled(s, a) && states[i - 1 + 1] == Next(s, a);
    if a.Gate? {
      BatchAtGate(s, a.n);
      j := i - 1;
      assert steps[j..i][..0] == [] && steps[j..i][0] == a;
    } else {
      if a.CreateOne? {
        assert a == CreateOne(a.uid, a.ok);
        BatchAtCreate(s, a.uid, a.ok);
      } else {
        BatchElsewhere(s, a);
      }
      j := BatchBehind(states, steps, i - 1);
      assert steps[j..i][..i - 1 - j] == steps[j..i - 1] && steps[j..i][i - 1 - j] == a;
    }
  }

  /** Nor is a Sandbox created on a guess. In every run, one is created only by
      a pass that has the template, and at whose gate nothing of the pool was
      pending, or the record was more than five minutes old; and the pass tries
      no more creates than the members it counted fell short of the desired
      number by. */
  lemma {:induction false} CreateIsGated(states: seq<State>, steps: seq<Step>, i: nat) returns (j: nat)
    requires IsRun(states, steps) && i < |steps| && steps[i].CreateOne?
    ensures j < i && steps[j].Gate? && SamePass(states, j, i) && MayPass(states[j].rec, states[j].clock)
    ensures states[j].pass.value.templateOk
    ensures CountCreates(steps[j..i + 1]) <= states[j].pass.value.desired - Total(states[j].pass.value)
  {
    var s, a := states[i], steps[i];
    assert Cursors(s) && Enabled(s, a) && a == CreateOne(a.uid, a.ok);
    hide Next, Enabled, MayPass, Total;
    BatchAtCreate(s, a.uid, a.ok);
    j := BatchBehind(states, steps, i);
    assert steps[j..i + 1][..i - j] == steps[j..i] && steps[j..i + 1][i - j] == a;
  }
}
