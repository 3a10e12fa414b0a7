/** Exactly which pending requests can be ended. On a run that keeps the deletion barrier a request with a
    checkpoint can always be withdrawn; one without can be stuck for ever. */
module Endable {
  import opened Types
  import opened Store
  import opened Machine
  import opened Invariant
  import opened Reach
  import opened Barrier
  import opened Initial
  import opened Reuse
  import opened Stalled
  import opened Withdrawing

  /** One recovery ends the request, or it is a deploy over a live application whose Service can be captured by
      an advance, and then given back. */
  ghost predicate CanEnd(s: Sys, r: Req)
    requires r in s.db.requests
  {
    || Recoverable(s, r)
    || (r !in s.db.checkpoints && s.db.requests[r].previous.Some? && s.svc.Some? && r !in s.db.withdrawals)
  }

  // --------------------------------------------------------------- possible

  /** The Service of a live application runs, unless it is being deleted. */
  lemma LiveRuns(s: Sys, r: Req)
    requires DbInv(s.db) && SvcInv(s) && Sealed(s) && LiveInv(s)
    requires Pend(s.db, r) && s.db.requests[r].previous.Some? && s.svc.Some?
    ensures !Marked(s) && !s.svc.value.target.sel.Inactive? && RunningAt(s, s.svc.value.target.sel)
  {
    assert RequestOK(s.db, r);
  }

  lemma AdvanceStarts(s: Sys, r: Req) returns (t: Sys)
    requires s.pc.Idle? && Pend(s.db, r) && r !in s.db.checkpoints && r !in s.db.withdrawals
    ensures Reaches(s, t) && t == s.(pc := Preparing(r, false))
  {
    Stay(s);
    Then(s, s, StartAdvance(r));
    t := Next(s, StartAdvance(r));
  }

  lemma AdvanceCaptures(s: Sys, r: Req) returns (t: Sys)
    requires s.pc == Preparing(r, false) && Pend(s.db, r) && r !in s.db.checkpoints
    requires s.svc.Some? && s.db.requests[r].previous.Some?
    ensures Reaches(s, t) && t == s.(pc := Captured(r, s.svc.value, false))
  {
    Stay(s);
    Then(s, s, PrepareReady);
    var s1 := Next(s, PrepareReady);
    Then(s, s1, AdvanceCapture);
    t := Next(s1, AdvanceCapture);
  }

  lemma AdvanceSaves(s: Sys, r: Req) returns (t: Sys)
    requires s.svc.Some? && s.pc == Captured(r, s.svc.value, false) && Pend(s.db, r) && r !in s.db.checkpoints
    requires s.db.requests[r].previous.Some? && RunningAt(s, s.svc.value.target.sel)
    ensures Reaches(s, t) && Withdrawable(t, r)
  {
    Stay(s);
    Then(s, s, SaveIntent);
    t := Next(s, SaveIntent);
  }

  lemma AdvanceThenWithdraw(s: Sys, r: Req) returns (t: Sys)
    requires Inv(s) && StartInv(s) && s.pc.Idle? && Pend(s.db, r) && r !in s.db.checkpoints && r !in s.db.withdrawals
    requires s.db.requests[r].previous.Some? && s.svc.Some?
    ensures Reaches(s, t) && Ended(t.db, r, Outcome.Withdrawn)
  {
    LiveRuns(s, r);
    var s1 := AdvanceStarts(s, r);
    var s2 := AdvanceCaptures(s1, r);
    Onwards(s, s1, s2);
    var s3 := AdvanceSaves(s2, r);
    Onwards(s, s2, s3);
    ReachesKeepsInv(s, s3);
    t := StartedWithdraws(s3, r);
    Onwards(s, s3, t);
  }

  // -------------------------------------------------------------- impossible

  lemma CannotEndIsStalled(s: Sys, r: Req)
    requires Inv(s) && ReuseInv(s) && StartInv(s) && s.pc.Idle? && Pend(s.db, r) && !CanEnd(s, r)
    ensures Unstartable(s, r) || OffGate(s, r)
  {
    if r !in s.db.checkpoints {
      assert RequestOK(s.db, r);
      if s.db.requests[r].previous.Some? && s.svc.Some? {
        LiveRuns(s, r);
      }
    }
  }

  // ------------------------------------------------------------------- exactly

  lemma AllHolds(s0: Sys, acts: seq<Action>)
    requires Init(s0) && ValidRun(s0, acts) && CarefulRun(s0, acts)
    ensures var s := Exec(s0, acts); Inv(s) && ReuseInv(s) && StartInv(s)
  {
    InitInv(s0);
    InitStart(s0);
    RunKeepsStart(s0, acts);
    RunKeepsReuse(s0, acts);
  }

  lemma EndsFrom(s: Sys, r: Req) returns (t: Sys)
    requires Inv(s) && StartInv(s) && s.pc.Idle? && Pend(s.db, r) && CanEnd(s, r)
    ensures Reaches(s, t) && Ended(t.db, r, Outcome.Withdrawn)
  {
    if Recoverable(s, r) {
      t := RecoverySuffices(s, r);
    } else {
      t := AdvanceThenWithdraw(s, r);
    }
  }

  /** On every run that keeps the barrier, in every environment: an idle pending request can be ended, by some
      run at all, if and only if it has a checkpoint (which, if withdrawn, still is at its gate) or its
      Service can be captured for it. */
  lemma EndableExactly(s0: Sys, acts: seq<Action>, r: Req)
    requires Init(s0) && ValidRun(s0, acts) && CarefulRun(s0, acts)
    requires Exec(s0, acts).pc.Idle? && Pend(Exec(s0, acts).db, r)
    ensures (exists t :: Reaches(Exec(s0, acts), t) && !Pend(t.db, r)) <==> CanEnd(Exec(s0, acts), r)
  {
    AllHolds(s0, acts);
    var s := Exec(s0, acts);
    if CanEnd(s, r) {
      var t := EndsFrom(s, r);
    } else {
      CannotEndIsStalled(s, r);
      forall t | Reaches(s, t) ensures Pend(t.db, r) {
        StalledForever(s, t, r);
      }
    }
  }

  /** The same once its withdrawal has been decided: some run withdraws it if and only if one undisturbed
      recovery does, and that is so exactly when the request is recoverable. */
  lemma RecoveryCompletes(s0: Sys, acts: seq<Action>, r: Req)
    requires Init(s0) && ValidRun(s0, acts) && CarefulRun(s0, acts)
    requires Exec(s0, acts).pc.Idle? && Pend(Exec(s0, acts).db, r) && r in Exec(s0, acts).db.withdrawals
    ensures (exists t :: Reaches(Exec(s0, acts), t) && Ended(t.db, r, Outcome.Withdrawn)) <==>
            Recoverable(Exec(s0, acts), r)
  {
    AllHolds(s0, acts);
    var s := Exec(s0, acts);
    if Recoverable(s, r) {
      var t := RecoverySuffices(s, r);
    } else {
      CannotEndIsStalled(s, r);
      forall t | Reaches(s, t) ensures Pend(t.db, r) {
        StalledForever(s, t, r);
      }
    }
  }
}
