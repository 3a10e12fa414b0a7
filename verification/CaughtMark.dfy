/** A third way in which a late deletion mark does harm: it lands after a deploy captured the Service and
    before that deploy fenced it. The mark is intact, but the request is pending, so the deletion does not
    go on; the deploy was overtaken, so it is not advanced; and the operation on the Service is a foreign
    one, so it is not recovered. */
module CaughtMark {
  import opened Types
  import opened Store
  import opened Machine
  import opened Invariant
  import opened Reach
  import opened Progress
  import opened Barrier
  import opened Stalled
  import opened LateMark

  const LateWrite := Update(2, Mark(1, DeletionTarget(1, Cfg)))

  /** Request 2 has captured and journalled the Service that the mark is aimed at. */
  predicate SecondCaptured(s: Sys) {
    && s.pc == IntentSaved(2) && LateWrite in s.writes
    && s.svc == Some(Service(0, 2, ByRequest(1), Target(Candidate(1), 80), None, None))
    && Pend(s.db, 2) && 2 in s.db.checkpoints && s.db.checkpoints[2].intent.gate == Gate(0, 2, ByRequest(1))
    && s.db.row == Some(AppRow(1, Cfg, false))
  }

  lemma SecondChecked(s: Sys) returns (t: Sys)
    requires FirstApplied(s)
    ensures Reaches(s, t) && t == s.(pc := Checked(2, Cfg, false, false)) && Admitted(t, 0, 12)
  {
    Stay(s);
    Then(s, s, StartDeploy(2, Cfg, false));
    t := Next(s, StartDeploy(2, Cfg, false));
    assert !Busy(t.db);
  }

  lemma SecondCaptures(s: Sys) returns (t: Sys)
    requires FirstApplied(s) && LateWrite in s.writes
    ensures Reaches(s, t) && SecondCaptured(t) && t.env == s.env
  {
    var s1 := SecondChecked(s);
    var s2 := LivePrepares(s1, 0, 12);
    Onwards(s, s1, s2);
    BegunRows(s1, 0, 12);
    t := IntentReached(s2);
    Onwards(s, s2, t);
  }

  lemma MarkLandsBetween(s: Sys) returns (t: Sys)
    requires SecondCaptured(s) && s.env.lateMarks
    ensures Reaches(s, t) && Intact(t) && t.db == s.db && Hijacked(t.db.checkpoints[2].intent, t.svc.value)
  {
    Stay(s);
    assert CanLand(s, LateWrite);
    Then(s, s, Land(LateWrite));
    t := Next(s, Land(LateWrite));
  }

  lemma CapturedReached(env: Env) returns (t: Sys)
    ensures Reaches(LegacyApp(env), t) && SecondCaptured(t) && t.env == env
  {
    var s1 := FirstDeploy(env);
    var s2 := DeleteGivesUp(s1, LateWrite);
    Onwards(LegacyApp(env), s1, s2);
    t := SecondCaptures(s2);
    Onwards(LegacyApp(env), s2, t);
  }

  /** A run to a state from which, in every state that any run reaches, the mark is intact and the request is
      pending, and neither fence, nor recovery fence, nor deletion is possible. */
  lemma LateMarkCatchesRequest(env: Env) returns (t: Sys)
    requires env.lateMarks
    ensures Init(LegacyApp(env)) && Reaches(LegacyApp(env), t) && Marked(t)
    ensures forall u :: Reaches(t, u) ==> Intact(u) && Pend(u.db, 2) && Caught(u, 2)
  {
    var s0 := LegacyApp(env);
    var s := CapturedReached(env);
    t := MarkLandsBetween(s);
    Onwards(s0, s, t);
    InitInv(s0);
    ReachesKeepsInv(s0, t);
    forall u | Reaches(t, u) ensures Intact(u) && Pend(u.db, 2) && Caught(u, 2) {
      var acts :| ValidRun(t, acts) && Exec(t, acts) == u;
      CaughtForever(t, acts, 2);
    }
  }
}
