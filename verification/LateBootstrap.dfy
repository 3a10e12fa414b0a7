/** A pending request that is stuck for ever although no deletion mark is late and the barrier holds. The
    creation of the inactive Service for a first request is sent twice and lands once; the request is
    withdrawn, the application deleted, and a new request begun; then the other creation lands. The
    Service now bears the label of the first request, so the new one can neither use it nor, since it
    was never restored under a recovery identity, take it over; and nothing is deleted while it is pending. */
module LateBootstrap {
  import opened Types
  import opened Store
  import opened Machine
  import opened Invariant
  import opened Reach
  import opened Barrier
  import opened Reuse
  import opened Stalled
  import opened Withdrawing
  import opened Endable
  import opened Deletion
  import opened OnTime
  import opened LateMark

  /** No application, no Service, nothing in flight. */
  function Nowhere(env: Env): Sys {
    Sys(env, AppData(None, map[], map[], map[], {}, map[], None), None, 1, 1, {}, map[], {}, Idle)
  }

  const Late := Bootstrap(1, InactiveTarget(1, Cfg))

  lemma FirstBegun(env: Env) returns (t: Sys)
    ensures Reaches(Nowhere(env), t) && t.pc == Preparing(1, false) && t.svc.None?
    ensures Pend(t.db, 1) && t.db.requests[1].previous.None? && t.db.requests[1].cfg == Cfg
    ensures 1 !in t.db.checkpoints && t.db.withdrawals == {}
  {
    var s := Nowhere(env);
    Stay(s);
    Then(s, s, StartDeploy(1, Cfg, false));
    var s1 := Next(s, StartDeploy(1, Cfg, false));
    Then(s, s1, Begin(1, 11, true));
    t := Next(s1, Begin(1, 11, true));
  }

  /** The creation is sent and its caller gives up. */
  lemma CreationLeft(s: Sys) returns (t: Sys)
    requires s.pc == Preparing(1, false) && s.svc.None?
    requires Pend(s.db, 1) && s.db.requests[1].previous.None? && s.db.requests[1].cfg == Cfg
    ensures Reaches(s, t) && t == s.(writes := s.writes + {Late}, pc := Idle)
  {
    Stay(s);
    Then(s, s, PrepareCreate);
    var s1 := Next(s, PrepareCreate);
    LockFreed(s1);
    t := s1.(pc := Idle);
    Onwards(s, s1, t);
  }

  /** It is sent again, and this time it lands. */
  lemma CreatedAgain(env: Env) returns (t: Sys)
    ensures Reaches(Nowhere(env), t) && Late in t.writes && Startable(t, 1)
    ensures t.svc.Some? && t.svc.value.deleting.None?
  {
    var s := Nowhere(env);
    var s1 := FirstBegun(env);
    var s2 := CreationLeft(s1);
    Onwards(s, s1, s2);
    var s3 := AdvanceStarts(s2, 1);
    Onwards(s, s2, s3);
    t := CreateLands(s3);
    Onwards(s, s3, t);
  }

  lemma NowhereInv(env: Env)
    ensures Init(Nowhere(env)) && Inv(Nowhere(env)) && ReuseInv(Nowhere(env))
  {
    InitInv(Nowhere(env));
  }

  lemma FirstWithdrawn(env: Env) returns (t: Sys)
    ensures Reaches(Nowhere(env), t) && Late in t.writes && t.pc.Idle? && NoPending(t.db)
    ensures t.svc.Some? && !Marked(t) && t.db.row.Some? && t.db.bindings != map[]
  {
    var s := Nowhere(env);
    NowhereInv(env);
    var s1 := CreatedAgain(env);
    ReachesKeepsInv(s, s1);
    t := UnstartedWithdraws(s1, 1);
    WritesStay(s1, t);
    RowsStay(s1, t);
    assert 1 in s1.db.requests && BoundOK(s1.db, 1) && 1 in t.db.bindings;
    Onwards(s, s1, t);
  }

  lemma Deleted(env: Env) returns (t: Sys)
    ensures Reaches(Nowhere(env), t) && Late in t.writes && t.pc.Idle? && !Busy(t.db)
    ensures t.svc.None? && t.db.row.Some? && t.db.row.value.deleted
  {
    var s1 := FirstWithdrawn(env);
    assert !Busy(s1.db);
    t := DeletionCompletes(s1);
    Onwards(Nowhere(env), s1, t);
    forall r | r in t.db.requests ensures !Pend(t.db, r) {
      assert !Pend(s1.db, r);
    }
  }

  lemma Unused(used: set<nat>) returns (n: nat)
    ensures n !in used
  {
    if used == {} {
      n := 0;
    } else {
      var top := MaxOf(used);
      n := top + 1;
    }
  }

  lemma {:induction false} MaxOf(used: set<nat>) returns (top: nat)
    requires used != {}
    ensures forall n :: n in used ==> n <= top
    decreases used
  {
    var x :| x in used;
    if used == {x} {
      top := x;
    } else {
      var rest := MaxOf(used - {x});
      top := if rest < x then x else rest;
      assert forall n :: n in used ==> n == x || n in used - {x};
    }
  }

  /** A new initial request is begun and its caller gives up. */
  lemma SecondBegun(s: Sys, r: Req, depId: nat) returns (t: Sys)
    requires s.pc.Idle? && s.svc.None? && !Busy(s.db) && s.db.row.Some? && s.db.row.value.deleted
    requires r !in s.db.bindings && r !in s.db.requests && r !in s.db.checkpoints && depId !in s.db.deployments
    ensures Reaches(s, t) && t == s.(db := t.db) && Pend(t.db, r) && r !in t.db.checkpoints
    ensures t.db.requests[r].previous.None?
  {
    Stay(s);
    Then(s, s, StartDeploy(r, Cfg, false));
    var s1 := Next(s, StartDeploy(r, Cfg, false));
    Then(s, s1, Begin(0, depId, true));
    var s2 := Next(s1, Begin(0, depId, true));
    LockFreed(s2);
    t := s2.(pc := Idle);
    Onwards(s, s2, t);
  }

  lemma CreationLands(s: Sys, r: Req) returns (t: Sys)
    requires s.pc.Idle? && s.svc.None? && Late in s.writes && r != 1
    requires Pend(s.db, r) && r !in s.db.checkpoints && s.db.requests[r].previous.None?
    ensures Reaches(s, t) && t.pc.Idle? && t.db == s.db && !Marked(t) && Blocked(t, r)
  {
    Stay(s);
    assert CanLand(s, Late);
    Then(s, s, Land(Late));
    t := Next(s, Land(Late));
  }

  lemma SecondReached(env: Env) returns (r: Req, t: Sys)
    ensures Reaches(Nowhere(env), t) && Late in t.writes && t.pc.Idle? && t.svc.None? && r != 1
    ensures Pend(t.db, r) && r !in t.db.checkpoints && t.db.requests[r].previous.None?
  {
    var s := Deleted(env);
    NowhereInv(env);
    ReachesKeepsInv(Nowhere(env), s);
    r := Unused(s.db.requests.Keys + {1});
    var depId := Unused(s.db.deployments.Keys);
    t := SecondBegun(s, r, depId);
    Onwards(Nowhere(env), s, t);
  }

  /** In every environment: a run from nothing to a pending request that stays pending in every state that any
      run reaches. If marks are never late it is a run that keeps the barrier. */
  lemma LateBootstrapBlocksRequest(env: Env) returns (acts: seq<Action>, r: Req, t: Sys)
    ensures Init(Nowhere(env)) && ValidRun(Nowhere(env), acts) && t == Exec(Nowhere(env), acts)
    ensures !env.lateMarks ==> CarefulRun(Nowhere(env), acts)
    ensures t.pc.Idle? && !Marked(t) && Pend(t.db, r) && !CanEnd(t, r)
    ensures forall u :: Reaches(t, u) ==> Pend(u.db, r)
  {
    var s0 := Nowhere(env);
    NowhereInv(env);
    var s;
    r, s := SecondReached(env);
    t := CreationLands(s, r);
    Onwards(s0, s, t);
    acts :| ValidRun(s0, acts) && Exec(s0, acts) == t;
    RunKeepsReuse(s0, acts);
    if !env.lateMarks {
      OnTimeRuns(s0, acts);
    }
    forall u | Reaches(t, u) ensures Pend(u.db, r) {
      StalledForever(t, u, r);
    }
  }
}
