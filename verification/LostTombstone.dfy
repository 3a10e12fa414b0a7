/** A second way in which a late write leaves an application that cannot be deleted. A deletion call for a
    hidden application sends the creation of a marked Service and gives up; the application is
    deployed again on another port and deleted again; then the creation lands. Its mark keeps every
    deploy out, but it is not the mark that the row asks for, so no deletion goes on under it. */
module LostTombstone {
  import opened Types
  import opened Store
  import opened Machine
  import opened Reach
  import opened Progress
  import opened Barrier
  import opened Deletion
  import opened LateMark

  const NewCfg := Config(8, 81, None)

  const Lost := Tombstone(1, DeletionTarget(1, Cfg))

  /** Request 1 was applied and the application deleted since. */
  predicate Hidden(s: Sys) {
    && s.pc == Idle && s.svc.None?
    && s.db.requests.Keys == {1} && Ended(s.db, 1, Applied) && s.db.bindings.Keys == {1}
    && s.db.checkpoints.Keys == {1} && s.db.withdrawals == {} && s.db.deployments.Keys == {11}
    && s.db.row == Some(AppRow(1, Cfg, true)) && Candidate(2) !in s.workloads
  }

  lemma FirstDeletion(env: Env) returns (t: Sys)
    ensures Reaches(LegacyApp(env), t) && Hidden(t) && t.env == env
  {
    var s := FirstDeploy(env);
    assert !Busy(s.db) && 1 in s.db.bindings;
    t := DeletionCompletes(s);
    Onwards(LegacyApp(env), s, t);
  }

  lemma TombstoneSent(s: Sys) returns (t: Sys)
    requires Hidden(s)
    ensures Reaches(s, t) && t == s.(writes := s.writes + {Lost})
  {
    assert !Busy(s.db) && 1 in s.db.bindings;
    DeletionStarts(s);
    var s1 := s.(pc := Deleting);
    Then(s, s1, DeleteCreate);
    var s2 := Next(s1, DeleteCreate);
    LockFreed(s2);
    t := s2.(pc := Idle);
    Onwards(s, s2, t);
  }

  /** Requests 1 and 2 are applied, the second one with another port. */
  predicate Redeployed(s: Sys) {
    && s.pc == Idle && s.svc.Some? && !Marked(s)
    && s.db.requests.Keys == {1, 2} && Ended(s.db, 1, Applied) && Ended(s.db, 2, Applied)
    && s.db.bindings.Keys == {1, 2} && s.db.row == Some(AppRow(1, NewCfg, false))
  }

  lemma NewDeployStarts(s: Sys) returns (t: Sys)
    requires Hidden(s)
    ensures Reaches(s, t) && t == s.(pc := Checked(2, NewCfg, false, false)) && Admitted(t, 0, 12)
  {
    Stay(s);
    Then(s, s, StartDeploy(2, NewCfg, false));
    t := Next(s, StartDeploy(2, NewCfg, false));
    assert !Busy(t.db);
  }

  lemma NewDeploy(s: Sys) returns (t: Sys)
    requires Hidden(s) && Lost in s.writes
    ensures Reaches(s, t) && Redeployed(t) && Lost in t.writes && t.env == s.env
  {
    var s1 := NewDeployStarts(s);
    var u, s2 := InitialDeployCompletes(s1, 0, 12);
    Onwards(s, s1, s2);
    LockFreed(s2);
    t := s2.(pc := Idle);
    Onwards(s, s2, t);
  }

  /** Everything is deleted once more, with the old creation still in flight. */
  predicate HiddenAgain(s: Sys) {
    && s.pc == Idle && s.svc.None? && Lost in s.writes
    && s.db.requests.Keys == {1, 2} && Ended(s.db, 1, Applied) && Ended(s.db, 2, Applied)
    && s.db.row == Some(AppRow(1, NewCfg, true))
  }

  lemma SecondDeletion(s: Sys) returns (t: Sys)
    requires Redeployed(s) && Lost in s.writes
    ensures Reaches(s, t) && HiddenAgain(t) && t.env == s.env
  {
    assert !Busy(s.db) && 1 in s.db.bindings;
    t := DeletionCompletes(s);
  }

  lemma TombstoneLandsLate(s: Sys) returns (t: Sys)
    requires HiddenAgain(s) && s.env.lateMarks
    ensures Reaches(s, t) && t.pc.Idle? && Marked(t) && NoPending(t.db) && !Intact(t) && BarrierHolds(t)
  {
    Stay(s);
    assert CanLand(s, Lost);
    Then(s, s, Land(Lost));
    t := Next(s, Land(Lost));
    assert t.db == s.db;
  }

  lemma HiddenAgainReached(env: Env) returns (t: Sys)
    ensures Reaches(LegacyApp(env), t) && HiddenAgain(t) && t.env == env
  {
    var s := LegacyApp(env);
    var s1 := FirstDeletion(env);
    var s2 := TombstoneSent(s1);
    Onwards(s, s1, s2);
    var s3 := NewDeploy(s2);
    Onwards(s, s2, s3);
    t := SecondDeletion(s3);
    Onwards(s, s3, t);
  }

  /** A run from an ordinary application to a state in which the barrier holds, and yet no run whatever
      removes the Service again. */
  lemma LateTombstoneBlocksDeletion(env: Env) returns (t: Sys)
    requires env.lateMarks
    ensures Init(LegacyApp(env)) && Reaches(LegacyApp(env), t) && t.pc.Idle?
    ensures Marked(t) && NoPending(t.db) && BarrierHolds(t) && !Intact(t)
    ensures forall u :: Reaches(t, u) ==> Dead(u)
  {
    var s := HiddenAgainReached(env);
    t := TombstoneLandsLate(s);
    Onwards(LegacyApp(env), s, t);
    forall u | Reaches(t, u) ensures Dead(u) {
      BrokenForever(LegacyApp(env), t, u);
    }
  }
}
