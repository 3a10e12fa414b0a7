/** Reachability between states of the protocol, for runs that are built step by step. */
module Reach {
  import opened Types
  import opened Store
  import opened Machine
  import opened Invariant
  import opened Life
  import opened Runs

  ghost predicate Reaches(s: Sys, t: Sys) {
    exists acts :: ValidRun(s, acts) && Exec(s, acts) == t
  }

  lemma Stay(s: Sys)
    ensures Reaches(s, s)
  {
    assert ValidRun(s, []) && Exec(s, []) == s;
  }

  lemma {:induction false} RunThen(s: Sys, acts: seq<Action>, more: seq<Action>)
    requires ValidRun(s, acts) && ValidRun(Exec(s, acts), more)
    ensures ValidRun(s, acts + more) && Exec(s, acts + more) == Exec(Exec(s, acts), more)
    decreases |acts|
  {
    if acts == [] {
      assert acts + more == more;
    } else {
      RunThen(Next(s, acts[0]), acts[1..], more);
      assert (acts + more)[1..] == acts[1..] + more;
    }
  }

  /** One more step at the end of a run. */
  lemma Then(s: Sys, t: Sys, a: Action)
    requires Reaches(s, t) && Enabled(t, a)
    ensures Reaches(s, Next(t, a))
  {
    var acts :| ValidRun(s, acts) && Exec(s, acts) == t;
    assert ValidRun(Next(t, a), []) && Exec(Next(t, a), []) == Next(t, a);
    assert [a][1..] == [];
    assert ValidRun(t, [a]) && Exec(t, [a]) == Next(t, a);
    RunThen(s, acts, [a]);
  }

  lemma Onwards(s: Sys, t: Sys, u: Sys)
    requires Reaches(s, t) && Reaches(t, u)
    ensures Reaches(s, u)
  {
    var acts :| ValidRun(s, acts) && Exec(s, acts) == t;
    var more :| ValidRun(t, more) && Exec(t, more) == u;
    RunThen(s, acts, more);
  }

  /** The lock holder gives up. */
  lemma LockFreed(s: Sys)
    ensures Reaches(s, s.(pc := Idle))
  {
    Stay(s);
    Then(s, s, Abort);
  }

  /** The Service write that the lock holder awaits lands. */
  lemma AwaitedLands(s: Sys) returns (t: Sys)
    requires s.pc.Await? && s.pc.w in s.writes && CanLand(s, s.pc.w)
    ensures Reaches(s, t)
    ensures t == s.(svc := LandedService(s, s.pc.w), nextRv := s.nextRv + 1, nextUid := s.nextUid + 1,
                    pc := Received(s.pc, s.pc.w, LandedService(s, s.pc.w)))
  {
    Stay(s);
    Then(s, s, Land(s.pc.w));
    t := Next(s, Land(s.pc.w));
  }

  lemma TombstoneLands(s: Sys, g: Selector) returns (t: Sys)
    requires Retire(g) in s.wwrites
    ensures Reaches(s, t) && g in t.workloads && t.workloads[g].Retired?
    ensures t == s.(workloads := t.workloads) && t.workloads == s.workloads[g := t.workloads[g]]
  {
    Stay(s);
    Then(s, s, LandWorkload(Retire(g)));
    t := Next(s, LandWorkload(Retire(g)));
  }

  lemma PodsDrain(s: Sys, g: Selector)
    requires g in s.workloads && s.workloads[g].Retired?
    ensures Reaches(s, s.(workloads := s.workloads[g := Retired(true)]))
  {
    Stay(s);
    Then(s, s, Drain(g));
  }

  /** A tombstone that was sent lands, and its pods go. */
  lemma RetiredDrains(s: Sys, g: Selector) returns (t: Sys)
    requires Retire(g) in s.wwrites
    ensures Reaches(s, t) && t == s.(workloads := s.workloads[g := Retired(true)])
  {
    var s1 := TombstoneLands(s, g);
    PodsDrain(s1, g);
    t := s.(workloads := s.workloads[g := Retired(true)]);
    assert s1.workloads[g := Retired(true)] == t.workloads;
    Onwards(s, s1, t);
  }

  /** A deletion call takes the lock. */
  lemma DeletionStarts(s: Sys)
    requires s.pc.Idle? && !Busy(s.db) && s.db.row.Some? && s.db.bindings != map[]
    ensures Reaches(s, s.(pc := Deleting))
  {
    Stay(s);
    Then(s, s, StartDelete);
  }

  /** A recovery call takes the lock, whoever held it before. */
  lemma RecoveryStarts(s: Sys, r: Req) returns (t: Sys)
    requires Pend(s.db, r)
    ensures Reaches(s, t)
    ensures t == s.(db := s.db.(withdrawals := s.db.withdrawals + {r}), pc := RecoverFrom(s.db, r))
  {
    LockFreed(s);
    var s1 := s.(pc := Idle);
    Then(s, s1, StartRecover(r));
    t := Next(s1, StartRecover(r));
  }

  /** The inactive Service that a preparation creates lands. */
  lemma CreateLands(s: Sys) returns (t: Sys)
    requires s.pc.Preparing? && s.svc.None? && Pend(s.db, s.pc.r) && s.db.requests[s.pc.r].previous.None?
    ensures Reaches(s, t) && s.writes <= t.writes
    ensures var target := InactiveTarget(s.pc.r, s.db.requests[s.pc.r].cfg);
            t == s.(svc := Some(Service(s.nextUid, s.nextRv, Unset, target, Some(s.pc.r), None)),
                    nextRv := s.nextRv + 1, nextUid := s.nextUid + 1, writes := t.writes)
  {
    Stay(s);
    Then(s, s, PrepareCreate);
    var s1 := Next(s, PrepareCreate);
    t := AwaitedLands(s1);
    Onwards(s, s1, t);
  }

  lemma RebindSent(s: Sys, prior: Req) returns (t: Sys)
    requires s.pc.Preparing? && Pend(s.db, s.pc.r) && s.db.requests[s.pc.r].previous.None? && Reusable(s, s.pc.r, prior)
    ensures Reaches(s, t)
    ensures var target := InactiveTarget(s.pc.r, s.db.requests[s.pc.r].cfg);
            t == DispatchWrite(s, KRebind(s.pc.r, s.pc.rec), Update(s.svc.value.rv, Rebind(s.pc.r, target)))
  {
    Stay(s);
    Then(s, s, PrepareRebind(prior));
    t := Next(s, PrepareRebind(prior));
  }

  /** The Service of a withdrawn initial request is bound to the one being prepared. */
  lemma RebindReplied(s: Sys, prior: Req) returns (t: Sys)
    requires s.pc.Preparing? && Pend(s.db, s.pc.r) && s.db.requests[s.pc.r].previous.None? && Reusable(s, s.pc.r, prior)
    ensures Reaches(s, t) && s.writes <= t.writes
    ensures var target := InactiveTarget(s.pc.r, s.db.requests[s.pc.r].cfg);
            var v := s.svc.value.(rv := s.nextRv, op := ByBootstrap(s.pc.r), target := target, initial := Some(s.pc.r));
            t == s.(svc := Some(v), nextRv := s.nextRv + 1, nextUid := s.nextUid + 1, writes := t.writes,
                    pc := if s.pc.rec then Captured(s.pc.r, v, true) else Advancing(s.pc.r))
  {
    var s1 := RebindSent(s, prior);
    t := AwaitedLands(s1);
    Onwards(s, s1, t);
  }

  lemma StepKeepsWrites(s: Sys, a: Action)
    requires Enabled(s, a)
    ensures Next(s, a).env == s.env && s.writes <= Next(s, a).writes
  {
  }

  lemma {:induction false} RunKeepsWrites(s: Sys, acts: seq<Action>)
    requires ValidRun(s, acts)
    ensures Exec(s, acts).env == s.env && s.writes <= Exec(s, acts).writes
    decreases |acts|
  {
    if acts != [] {
      StepKeepsWrites(s, acts[0]);
      RunKeepsWrites(Next(s, acts[0]), acts[1..]);
    }
  }

  /** The environment stays what it is, and no dispatched write is ever taken back. */
  lemma WritesStay(s: Sys, t: Sys)
    requires Reaches(s, t)
    ensures t.env == s.env && s.writes <= t.writes
  {
    var acts :| ValidRun(s, acts) && Exec(s, acts) == t;
    RunKeepsWrites(s, acts);
  }

  lemma RowsStay(s: Sys, t: Sys)
    requires Inv(s) && Reaches(s, t)
    ensures Onward(s.db, t.db)
  {
    var acts :| ValidRun(s, acts) && Exec(s, acts) == t;
    RunKeepsInv(s, acts);
  }

  lemma ReachesKeepsInv(s: Sys, t: Sys)
    requires Inv(s) && Reaches(s, t)
    ensures Inv(t)
  {
    var acts :| ValidRun(s, acts) && Exec(s, acts) == t;
    RunKeepsInv(s, acts);
  }
}
