/** A mark that lands after a later deploy passed its deletion check is overwritten by that deploy's
    activation, and leaves an application that can neither be deployed nor deleted. */
module LateMark {
  import opened Types
  import opened Store
  import opened Machine
  import opened Invariant
  import opened Reach
  import opened Progress
  import opened Barrier
  import opened OnTime
  import opened Deletion

  const Cfg := Config(7, 80, None)

  /** A live legacy application that no candidate request has touched. */
  function LegacyApp(env: Env): Sys {
    Sys(env, AppData(Some(AppRow(1, Cfg, false)), map[], map[], map[], {}, map[], None),
        Some(Service(0, 0, Unset, Target(Legacy, 80), None, None)), 1, 1, {}, map[Legacy := Running], {}, Idle)
  }

  /** Request 1 has been applied and the lock is free. */
  predicate FirstApplied(s: Sys) {
    && s.pc == Idle
    && s.db.requests.Keys == {1} && Ended(s.db, 1, Applied) && s.db.bindings.Keys == {1}
    && s.db.checkpoints.Keys == {1} && s.db.withdrawals == {} && s.db.deployments.Keys == {11}
    && s.db.row == Some(AppRow(1, Cfg, false))
    && s.svc == Some(Service(0, 2, ByRequest(1), Target(Candidate(1), 80), None, None)) && s.nextRv == 3
    && s.workloads.Keys == {Legacy, Candidate(1)}
  }

  lemma FirstChecked(env: Env) returns (t: Sys)
    ensures Reaches(LegacyApp(env), t) && t == LegacyApp(env).(pc := Checked(1, Cfg, false, false))
  {
    var s := LegacyApp(env);
    Stay(s);
    Then(s, s, StartDeploy(1, Cfg, false));
    t := Next(s, StartDeploy(1, Cfg, false));
  }

  lemma FirstAdmitted(s: Sys)
    requires s == LegacyApp(s.env).(pc := Checked(1, Cfg, false, false))
    ensures Admitted(s, 0, 11) && Live(s.db.row) && Fenceable(s.svc, 1, Cfg)
    ensures Begun(s, 0, 11).row == s.db.row
  {
  }

  lemma FirstRows(s: Sys, t: Sys)
    requires s == LegacyApp(s.env).(pc := Checked(1, Cfg, false, false)) && Admitted(s, 0, 11)
    requires Begun(s, 0, 11).row == s.db.row && Completed(s, s, t, 0, 11)
    ensures FirstApplied(t.(pc := Idle))
  {
  }

  lemma FirstCommits(s: Sys) returns (t: Sys)
    requires s == LegacyApp(s.env).(pc := Checked(1, Cfg, false, false))
    ensures Reaches(s, t) && FirstApplied(t.(pc := Idle)) && t.env == s.env
  {
    FirstAdmitted(s);
    t := DeployCompletes(s, 0, 11);
    FirstRows(s, t);
  }

  lemma FirstDeploy(env: Env) returns (t: Sys)
    ensures Reaches(LegacyApp(env), t) && FirstApplied(t) && t.env == env
  {
    var s1 := FirstChecked(env);
    var s2 := FirstCommits(s1);
    Onwards(LegacyApp(env), s1, s2);
    LockFreed(s2);
    t := s2.(pc := Idle);
    Onwards(LegacyApp(env), s2, t);
  }

  lemma DeleteGivesUp(s: Sys, w: Write) returns (t: Sys)
    requires FirstApplied(s) && w == Update(2, Mark(1, DeletionTarget(1, Cfg)))
    ensures Reaches(s, t) && t == s.(writes := s.writes + {w})
  {
    assert !Busy(s.db) && 1 in s.db.bindings;
    DeletionStarts(s);
    var s1 := s.(pc := Deleting);
    Then(s, s1, DeleteMark);
    var s2 := Next(s1, DeleteMark);
    LockFreed(s2);
    t := s2.(pc := Idle);
    Onwards(s, s2, t);
  }

  lemma MarkLandsLate(s: Sys, w: Write) returns (t: Sys)
    requires FirstApplied(s) && w == Update(2, Mark(1, DeletionTarget(1, Cfg))) && w in s.writes && s.env.lateMarks
    ensures Reaches(s, t)
    ensures t == s.(svc := Some(Service(0, 3, ByDeletion(1), DeletionTarget(1, Cfg), None, Some(1))),
                    nextRv := 4, nextUid := t.nextUid, pc := Checked(2, Cfg, false, false))
  {
    Stay(s);
    Then(s, s, StartDeploy(2, Cfg, false));
    var s1 := Next(s, StartDeploy(2, Cfg, false));
    assert CanLand(s1, w);
    Then(s, s1, Land(w));
    t := Next(s1, Land(w));
  }

  lemma LateMarkReached(env: Env) returns (t: Sys)
    requires env.lateMarks
    ensures Reaches(LegacyApp(env), t) && Marked(t) && t.pc == Checked(2, Cfg, false, false)
    ensures Admitted(t, 0, 12) && Live(t.db.row) && Fenceable(t.svc, 2, Cfg)
    ensures t.db.requests.Keys == {1} && Ended(t.db, 1, Applied)
  {
    var s := LegacyApp(env);
    var w := Update(2, Mark(1, DeletionTarget(1, Cfg)));
    var s1 := FirstDeploy(env);
    var s2 := DeleteGivesUp(s1, w);
    Onwards(s, s1, s2);
    t := MarkLandsLate(s2, w);
    Onwards(s, s2, t);
    assert !Busy(t.db);
  }

  /** A run that ends with a committed request whose candidate is selected on a marked Service. Every state
      after that is dead: the application can neither be deployed nor deleted any more. */
  lemma LateMarkBreaksBarrier(env: Env) returns (t: Sys)
    requires env.lateMarks
    ensures Init(LegacyApp(env)) && Reaches(LegacyApp(env), t)
    ensures Ended(t.db, 2, Applied) && t.svc.Some? && t.svc.value.target.sel == Candidate(2) && !BarrierHolds(t)
    ensures forall u :: Reaches(t, u) ==> Dead(u)
  {
    var s := LateMarkReached(env);
    t := DeployCompletes(s, 0, 12);
    Onwards(LegacyApp(env), s, t);
    assert forall r :: r in t.db.requests ==> r == 1 || r == 2;
    forall u | Reaches(t, u) ensures Dead(u) {
      BrokenForever(LegacyApp(env), t, u);
    }
  }

  /** Seen from the environment: the barrier holds in all reachable states exactly if marks never land
      late. Which single runs keep it otherwise is said by Barrier.BarrierExactly. */
  lemma BarrierExact(env: Env)
    ensures (forall s0, s :: Init(s0) && s0.env == env && Reaches(s0, s) ==> BarrierHolds(s)) <==> !env.lateMarks
  {
    if env.lateMarks {
      var t := LateMarkBreaksBarrier(env);
    } else {
      forall s0, s | Init(s0) && s0.env == env && Reaches(s0, s) ensures BarrierHolds(s) {
        var acts :| ValidRun(s0, acts) && Exec(s0, acts) == s;
        OnTimeRuns(s0, acts);
        HoldsAtEnd(s0, acts);
      }
    }
  }
}
