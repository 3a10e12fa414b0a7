/** A deploy that nothing disturbs runs through every stage and is applied, over a live application, as an
    initial one, or as the retry of a withdrawn initial one. */
module Progress {
  import opened Types
  import opened Store
  import opened Machine
  import opened Reach

  /** A deploy that begin accepts as a new request. */
  predicate Admitted(s: Sys, appId: nat, depId: nat) {
    && s.pc.Checked? && !s.pc.withdraw && s.pc.r !in s.db.bindings && s.pc.r !in s.db.requests
    && s.pc.r !in s.db.checkpoints && s.pc.r !in s.db.withdrawals
    && BeginTx(s.db, s.pc.r, s.pc.cfg, s.pc.report, appId, depId, true, false).Some?
    && Candidate(s.pc.r) !in s.workloads
  }

  /** The rows right after begin. */
  function Begun(s: Sys, appId: nat, depId: nat): AppData
    requires Admitted(s, appId, depId)
  {
    BeginTx(s.db, s.pc.r, s.pc.cfg, s.pc.report, appId, depId, true, false).value
  }

  /** A Service that the request may fence and then retarget. */
  predicate Fenceable(svc: Option<Service>, r: Req, cfg: Config) {
    && svc.Some? && svc.value.op != ByRequest(r)
    && svc.value.target.sel != Candidate(r) && svc.value.target.port == cfg.port
  }

  /** Preparation is done: the request may capture the Service. */
  ghost predicate ReadyToCapture(s: Sys, u: Sys, appId: nat, depId: nat) {
    && Admitted(s, appId, depId) && Reaches(s, u)
    && u.pc == Advancing(s.pc.r) && u.db == Begun(s, appId, depId) && u.env == s.env && s.writes <= u.writes
    && u.workloads == s.workloads && Fenceable(u.svc, s.pc.r, s.pc.cfg)
  }

  /** The rows while the candidate is on its way. */
  predicate Underway(s: Sys, t: Sys, appId: nat, depId: nat) {
    && Admitted(s, appId, depId) && s.pc.r in t.db.checkpoints
    && t.db == Begun(s, appId, depId).(
                 checkpoints := s.db.checkpoints[s.pc.r := t.db.checkpoints[s.pc.r]])
    && t.db.checkpoints[s.pc.r].intent.cfg == s.pc.cfg
    && t.env == s.env && s.writes <= t.writes
  }

  lemma BegunRows(s: Sys, appId: nat, depId: nat)
    requires Admitted(s, appId, depId)
    ensures var d := Begun(s, appId, depId);
            && d.row.Some? && Pend(d, s.pc.r) && s.pc.r in d.bindings && s.pc.r !in d.withdrawals
            && d.row == (if s.db.row.Some? then s.db.row else Some(AppRow(appId, s.pc.cfg, true)))
            && d.requests == s.db.requests[s.pc.r := d.requests[s.pc.r]]
            && d.requests[s.pc.r].cfg == s.pc.cfg && PredecessorHolds(d.row.value, d.requests[s.pc.r])
            && d.requests[s.pc.r].previous.Some? == Live(s.db.row)
            && d.bindings == s.db.bindings[s.pc.r := Binding(d.row.value.id, depId)]
            && d.deployments == s.db.deployments[depId := Deployment(d.row.value.id, Pending)]
            && d.checkpoints == s.db.checkpoints && d.withdrawals == s.db.withdrawals
  {
  }

  // ------------------------------------------------------------- preparation

  lemma Begins(s: Sys, appId: nat, depId: nat) returns (t: Sys)
    requires Admitted(s, appId, depId)
    ensures Reaches(s, t) && t == s.(db := Begun(s, appId, depId), pc := Preparing(s.pc.r, false))
  {
    Stay(s);
    BegunRows(s, appId, depId);
    Then(s, s, Begin(appId, depId, true));
    t := Next(s, Begin(appId, depId, true));
  }

  /** Over a live application the Service is taken as it is. */
  lemma LivePrepares(s: Sys, appId: nat, depId: nat) returns (u: Sys)
    requires Admitted(s, appId, depId) && Live(s.db.row) && Fenceable(s.svc, s.pc.r, s.pc.cfg)
    ensures ReadyToCapture(s, u, appId, depId) && u == s.(db := u.db, pc := u.pc)
  {
    var s1 := Begins(s, appId, depId);
    BegunRows(s, appId, depId);
    Then(s, s1, PrepareReady);
    u := Next(s1, PrepareReady);
  }

  lemma InactiveReady(s: Sys, s1: Sys, r: Req) returns (u: Sys)
    requires Reaches(s, s1) && s1.pc == Preparing(r, false) && Pend(s1.db, r) && s1.db.requests[r].previous.None?
    requires s1.svc.Some? && s1.svc.value.target == InactiveTarget(r, s1.db.requests[r].cfg)
    ensures Reaches(s, u) && u == s1.(pc := Advancing(r))
  {
    Then(s, s1, PrepareReady);
    u := Next(s1, PrepareReady);
  }

  /** Without a Service an inactive one is created first. */
  lemma CreatePrepares(s: Sys, appId: nat, depId: nat) returns (u: Sys)
    requires Admitted(s, appId, depId) && !Live(s.db.row) && s.svc.None?
    ensures ReadyToCapture(s, u, appId, depId) && u.nextRv == s.nextRv + 1
    ensures u.svc == Some(Service(s.nextUid, s.nextRv, Unset, InactiveTarget(s.pc.r, s.pc.cfg), Some(s.pc.r), None))
  {
    var s1 := Begins(s, appId, depId);
    BegunRows(s, appId, depId);
    var s2 := CreateLands(s1);
    Onwards(s, s1, s2);
    u := InactiveReady(s, s2, s.pc.r);
  }

  /** A Service left behind by a withdrawn initial request is bound to the new one. */
  lemma RebindPrepares(s: Sys, appId: nat, depId: nat, prior: Req) returns (u: Sys)
    requires Admitted(s, appId, depId) && !Live(s.db.row)
    requires Reusable(s.(db := Begun(s, appId, depId)), s.pc.r, prior)
    ensures ReadyToCapture(s, u, appId, depId) && u.nextRv == s.nextRv + 1
    ensures u.svc == Some(s.svc.value.(rv := s.nextRv, op := ByBootstrap(s.pc.r), initial := Some(s.pc.r),
                                       target := InactiveTarget(s.pc.r, s.pc.cfg)))
  {
    var s1 := Begins(s, appId, depId);
    BegunRows(s, appId, depId);
    assert Reusable(s1, s.pc.r, prior);
    u := RebindReplied(s1, prior);
    Onwards(s, s1, u);
  }

  // --------------------------------------------------------------- the stages

  lemma IntentReached(s: Sys) returns (t: Sys)
    requires s.pc.Advancing? && Pend(s.db, s.pc.r) && s.pc.r !in s.db.checkpoints && s.svc.Some?
    ensures Reaches(s, t)
    ensures var intent := Intent(s.db.requests[s.pc.r].cfg, GateOf(s.svc.value), s.svc.value.target);
            t == s.(db := s.db.(checkpoints := s.db.checkpoints[s.pc.r := Checkpoint(Prepared, intent, Empty)]),
                    pc := IntentSaved(s.pc.r))
  {
    Stay(s);
    Then(s, s, AdvanceCapture);
    var s1 := Next(s, AdvanceCapture);
    Then(s, s1, SaveIntent);
    t := Next(s1, SaveIntent);
  }

  lemma FenceLands(s: Sys) returns (t: Sys)
    requires s.pc.IntentSaved? && s.svc.Some? && s.pc.r in s.db.checkpoints
    requires s.db.checkpoints[s.pc.r].intent.gate == GateOf(s.svc.value) && s.svc.value.op != ByRequest(s.pc.r)
    ensures Reaches(s, t) && s.writes <= t.writes
    ensures var v := s.svc.value.(rv := s.nextRv, op := ByRequest(s.pc.r));
            t == s.(svc := Some(v), nextRv := s.nextRv + 1, nextUid := s.nextUid + 1, writes := t.writes,
                    pc := Got(KFence(s.pc.r), GateOf(v)))
  {
    Stay(s);
    Then(s, s, DispatchFence);
    var s1 := Next(s, DispatchFence);
    var w := Update(s.svc.value.rv, Fence(ByRequest(s.pc.r)));
    assert s1.pc == Await(KFence(s.pc.r), w) && CanLand(s1, w);
    t := AwaitedLands(s1);
    Onwards(s, s1, t);
  }

  lemma FenceReached(s: Sys) returns (t: Sys)
    requires s.pc.IntentSaved? && s.svc.Some? && Pend(s.db, s.pc.r) && At(s.db, s.pc.r, Prepared)
    requires s.db.checkpoints[s.pc.r].intent.gate == GateOf(s.svc.value) && s.svc.value.op != ByRequest(s.pc.r)
    ensures Reaches(s, t) && t.pc == Deploying(s.pc.r) && t.svc.Some?
    ensures var v := s.svc.value.(rv := s.nextRv, op := ByRequest(s.pc.r));
            t == s.(db := s.db.(checkpoints := s.db.checkpoints[
                            s.pc.r := s.db.checkpoints[s.pc.r].(stage := Fenced, saved := Token(GateOf(v)))]),
                    svc := Some(v), nextRv := s.nextRv + 1, nextUid := s.nextUid + 1, writes := t.writes, pc := t.pc)
    ensures s.writes <= t.writes
  {
    var s1 := FenceLands(s);
    Then(s, s1, RecordFenced);
    t := Next(s1, RecordFenced);
  }

  lemma WorkloadReached(s: Sys) returns (t: Sys)
    requires s.pc.Deploying? && Candidate(s.pc.r) !in s.workloads
    ensures Reaches(s, t)
    ensures t == s.(workloads := s.workloads[Candidate(s.pc.r) := Running], wwrites := t.wwrites)
  {
    Stay(s);
    Then(s, s, DispatchWorkload);
    var s1 := Next(s, DispatchWorkload);
    Then(s, s1, LandWorkload(Deploy(Candidate(s.pc.r))));
    t := Next(s1, LandWorkload(Deploy(Candidate(s.pc.r))));
  }

  lemma ActivationLands(s: Sys) returns (t: Sys)
    requires s.pc.Deploying? && Pend(s.db, s.pc.r) && AtSavedGate(s, s.pc.r)
    requires s.svc.value.op == ByRequest(s.pc.r) && s.svc.value.target.port == s.db.requests[s.pc.r].cfg.port
    requires s.svc.value.target.sel != Candidate(s.pc.r) && RunningAt(s, Candidate(s.pc.r))
    ensures Reaches(s, t) && s.writes <= t.writes
    ensures var v := s.svc.value.(rv := s.nextRv, target := CandidateTarget(s.pc.r, s.db.requests[s.pc.r].cfg));
            t == s.(svc := Some(v), nextRv := s.nextRv + 1, nextUid := s.nextUid + 1, writes := t.writes,
                    pc := Got(KActivate(s.pc.r), GateOf(v)))
  {
    var s1 := ActivationSent(s);
    t := AwaitedLands(s1);
    Onwards(s, s1, t);
  }

  lemma ActivationSent(s: Sys) returns (t: Sys)
    requires s.pc.Deploying? && Pend(s.db, s.pc.r) && AtSavedGate(s, s.pc.r)
    requires s.svc.value.op == ByRequest(s.pc.r) && s.svc.value.target.port == s.db.requests[s.pc.r].cfg.port
    requires RunningAt(s, Candidate(s.pc.r))
    ensures Reaches(s, t)
    ensures var target := CandidateTarget(s.pc.r, s.db.requests[s.pc.r].cfg);
            t == DispatchWrite(s, KActivate(s.pc.r), Update(s.svc.value.rv, Retarget(target)))
  {
    Stay(s);
    Then(s, s, DispatchActivate);
    t := Next(s, DispatchActivate);
  }

  lemma ActivationReached(s: Sys) returns (t: Sys)
    requires s.pc.Deploying? && Pend(s.db, s.pc.r) && At(s.db, s.pc.r, Fenced) && AtSavedGate(s, s.pc.r)
    requires s.svc.value.op == ByRequest(s.pc.r) && s.svc.value.target.port == s.db.requests[s.pc.r].cfg.port
    requires s.svc.value.target.sel != Candidate(s.pc.r) && RunningAt(s, Candidate(s.pc.r))
    ensures Reaches(s, t) && t.pc == Completing(s.pc.r) && t.svc.Some?
    ensures var v := s.svc.value.(rv := s.nextRv, target := CandidateTarget(s.pc.r, s.db.requests[s.pc.r].cfg));
            t == s.(db := s.db.(checkpoints := s.db.checkpoints[
                            s.pc.r := s.db.checkpoints[s.pc.r].(stage := Activated, saved := Token(GateOf(v)))]),
                    svc := Some(v), nextRv := s.nextRv + 1, nextUid := s.nextUid + 1, writes := t.writes, pc := t.pc)
    ensures s.writes <= t.writes
  {
    var s1 := ActivationLands(s);
    Then(s, s1, RecordActivated);
    t := Next(s1, RecordActivated);
  }

  lemma RecheckReached(s: Sys) returns (t: Sys)
    requires s.pc.Completing? && Pend(s.db, s.pc.r) && At(s.db, s.pc.r, Activated) && AtSavedGate(s, s.pc.r)
    requires RunningAt(s, Candidate(s.pc.r))
    requires s.svc.value.target == CandidateTarget(s.pc.r, s.db.requests[s.pc.r].cfg)
    ensures Reaches(s, t) && t == s.(pc := Committing(s.pc.r, Applied))
  {
    Stay(s);
    Then(s, s, ObserveApplied);
    var s1 := Next(s, ObserveApplied);
    Then(s, s1, Recheck);
    t := Next(s1, Recheck);
  }

  lemma CommitReached(s: Sys, t0: Sys, appId: nat, depId: nat) returns (t: Sys)
    requires Reaches(s, t0) && Underway(s, t0, appId, depId) && t0.pc == Completing(s.pc.r)
    requires At(t0.db, s.pc.r, Activated) && AtSavedGate(t0, s.pc.r) && RunningAt(t0, Candidate(s.pc.r))
    requires t0.svc.value.target == CandidateTarget(s.pc.r, s.pc.cfg)
    ensures Reaches(s, t) && t == t0.(db := t.db, pc := Reclaiming(s.pc.r)) && Committed(s, t, appId, depId)
  {
    BegunRows(s, appId, depId);
    var t2 := RecheckReached(t0);
    Onwards(s, t0, t2);
    UnderwayFinalizes(s, t2, appId, depId);
    t := FinalizeReached(t2);
    Onwards(s, t2, t);
    Finalized(s, t2, t, appId, depId);
  }

  lemma UnderwayFinalizes(s: Sys, t: Sys, appId: nat, depId: nat)
    requires Underway(s, t, appId, depId) && At(t.db, s.pc.r, Activated)
    ensures Finalizable(t.db, s.pc.r, Applied, t.db.checkpoints[s.pc.r].saved)
  {
    BegunRows(s, appId, depId);
  }

  lemma FinalizeReached(s: Sys) returns (t: Sys)
    requires s.pc.Committing? && s.pc.o.Applied? && s.pc.r in s.db.checkpoints
    requires Finalizable(s.db, s.pc.r, Applied, s.db.checkpoints[s.pc.r].saved)
    ensures Reaches(s, t) && t == s.(db := t.db, pc := Reclaiming(s.pc.r))
    ensures t.db == FinalizeTx(s.db, s.pc.r, Applied, s.db.checkpoints[s.pc.r].saved).value.0
  {
    Stay(s);
    Then(s, s, Commit);
    t := Next(s, Commit);
  }

  lemma Finalized(s: Sys, t0: Sys, t: Sys, appId: nat, depId: nat)
    requires Underway(s, t0, appId, depId)
    requires Finalizable(t0.db, s.pc.r, Applied, t0.db.checkpoints[s.pc.r].saved)
    requires t.db == FinalizeTx(t0.db, s.pc.r, Applied, t0.db.checkpoints[s.pc.r].saved).value.0
    ensures Committed(s, t, appId, depId)
  {
    BegunRows(s, appId, depId);
  }

  /** The rows after the request was applied: new desired state and route, everything else kept. */
  predicate Committed(s: Sys, t: Sys, appId: nat, depId: nat) {
    && Admitted(s, appId, depId) && Ended(t.db, s.pc.r, Applied)
    && (var row := Begun(s, appId, depId).row;
        && row.Some? && t.db.row == Some(AppRow(row.value.id, s.pc.cfg, false))
        && t.db.bindings == s.db.bindings[s.pc.r := Binding(row.value.id, depId)])
    && t.db.route == s.pc.cfg.domain
    && t.db.requests == s.db.requests[s.pc.r := t.db.requests[s.pc.r]] && t.db.requests[s.pc.r].cfg == s.pc.cfg
    && t.db.checkpoints.Keys == s.db.checkpoints.Keys + {s.pc.r}
    && t.db.withdrawals == s.db.withdrawals && t.db.deployments.Keys == s.db.deployments.Keys + {depId}
  }

  /** Fenced, activated and committed: the Service that `u` captured now selects the candidate. */
  ghost predicate Completed(s: Sys, u: Sys, t: Sys, appId: nat, depId: nat) {
    && Committed(s, t, appId, depId) && Reaches(s, t) && t.pc == Reclaiming(s.pc.r)
    && t.env == s.env && s.writes <= t.writes && u.svc.Some? && t.nextRv == u.nextRv + 2
    && t.svc == Some(u.svc.value.(rv := u.nextRv + 1, op := ByRequest(s.pc.r),
                                  target := CandidateTarget(s.pc.r, s.pc.cfg)))
    && t.workloads == s.workloads[Candidate(s.pc.r) := Running]
  }

  lemma FencedUnderway(s: Sys, u: Sys, appId: nat, depId: nat) returns (t: Sys)
    requires ReadyToCapture(s, u, appId, depId)
    ensures Reaches(s, t) && t.pc == Deploying(s.pc.r) && Underway(s, t, appId, depId)
    ensures At(t.db, s.pc.r, Fenced) && AtSavedGate(t, s.pc.r)
    ensures t.svc == Some(u.svc.value.(rv := u.nextRv, op := ByRequest(s.pc.r)))
    ensures t.workloads == s.workloads && t.nextRv == u.nextRv + 1
  {
    BegunRows(s, appId, depId);
    var s2 := IntentReached(u);
    Onwards(s, u, s2);
    t := FenceReached(s2);
    Onwards(s, s2, t);
  }

  lemma ActivatedUnderway(s: Sys, u: Sys, appId: nat, depId: nat) returns (t: Sys)
    requires ReadyToCapture(s, u, appId, depId)
    ensures Reaches(s, t) && t.pc == Completing(s.pc.r) && Underway(s, t, appId, depId)
    ensures At(t.db, s.pc.r, Activated) && AtSavedGate(t, s.pc.r)
    ensures t.svc == Some(u.svc.value.(rv := u.nextRv + 1, op := ByRequest(s.pc.r),
                                       target := CandidateTarget(s.pc.r, s.pc.cfg)))
    ensures t.workloads == s.workloads[Candidate(s.pc.r) := Running] && t.nextRv == u.nextRv + 2
  {
    var s1 := FencedUnderway(s, u, appId, depId);
    BegunRows(s, appId, depId);
    var s2 := WorkloadReached(s1);
    Onwards(s, s1, s2);
    t := ActivationReached(s2);
    Onwards(s, s2, t);
  }

  lemma PreparedCompletes(s: Sys, u: Sys, appId: nat, depId: nat) returns (t: Sys)
    requires ReadyToCapture(s, u, appId, depId)
    ensures Completed(s, u, t, appId, depId)
  {
    var t1 := ActivatedUnderway(s, u, appId, depId);
    t := CommitReached(s, t1, appId, depId);
  }

  /** From the moment a deploy passed the deletion check, an undisturbed run applies it: the row has the
      new desired state and the Service, otherwise unchanged, selects the running candidate. */
  lemma DeployCompletes(s: Sys, appId: nat, depId: nat) returns (t: Sys)
    requires Admitted(s, appId, depId) && Live(s.db.row) && Fenceable(s.svc, s.pc.r, s.pc.cfg)
    ensures Completed(s, s, t, appId, depId)
  {
    var u := LivePrepares(s, appId, depId);
    t := PreparedCompletes(s, u, appId, depId);
  }

  /** The same for an application that is not live yet, or no longer: its Service is created inactive,
      and the row becomes visible with the commit. */
  lemma InitialDeployCompletes(s: Sys, appId: nat, depId: nat) returns (u: Sys, t: Sys)
    requires Admitted(s, appId, depId) && !Live(s.db.row) && s.svc.None?
    ensures u.svc == Some(Service(s.nextUid, s.nextRv, Unset, InactiveTarget(s.pc.r, s.pc.cfg), Some(s.pc.r), None))
    ensures u.nextRv == s.nextRv + 1 && Completed(s, u, t, appId, depId)
  {
    u := CreatePrepares(s, appId, depId);
    t := PreparedCompletes(s, u, appId, depId);
  }

  /** And for one whose earlier initial request was withdrawn and left its Service behind. */
  lemma RetryCompletes(s: Sys, appId: nat, depId: nat, prior: Req) returns (u: Sys, t: Sys)
    requires Admitted(s, appId, depId) && !Live(s.db.row)
    requires Reusable(s.(db := Begun(s, appId, depId)), s.pc.r, prior)
    ensures u.svc == Some(s.svc.value.(rv := s.nextRv, op := ByBootstrap(s.pc.r), initial := Some(s.pc.r),
                                       target := InactiveTarget(s.pc.r, s.pc.cfg)))
    ensures u.nextRv == s.nextRv + 1 && Completed(s, u, t, appId, depId)
  {
    u := RebindPrepares(s, appId, depId, prior);
    t := PreparedCompletes(s, u, appId, depId);
  }
}
