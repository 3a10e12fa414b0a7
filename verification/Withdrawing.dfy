/** A recovery that nothing disturbs does not only restore traffic: it retires the candidate, waits for its
    pods, and commits the request as withdrawn. That holds with or without a checkpoint. */
module Withdrawing {
  import opened Types
  import opened Store
  import opened Machine
  import opened Invariant
  import opened Reach
  import opened Initial
  import opened Convergence

  // --------------------------------------------------------------- completion

  lemma RetiringReached(s: Sys, r: Req) returns (t: Sys)
    requires Pend(s.db, r) && At(s.db, r, Stage.Withdrawn) && FallsBack(s.db, r, s.db.checkpoints[r].intent.pred)
    ensures Reaches(s, t)
    ensures t == s.(db := s.db.(withdrawals := s.db.withdrawals + {r}), pc := Retiring(r))
  {
    var s1 := RecoveryStarts(s, r);
    Then(s, s1, RecordRecovering);
    t := Next(s1, RecordRecovering);
  }

  lemma CandidateGone(s: Sys) returns (t: Sys)
    requires s.pc.Retiring?
    ensures Reaches(s, t)
    ensures t == s.(workloads := s.workloads[Candidate(s.pc.r) := Retired(true)], wwrites := t.wwrites)
  {
    Stay(s);
    Then(s, s, DispatchRetire);
    var s1 := Next(s, DispatchRetire);
    t := RetiredDrains(s1, Candidate(s.pc.r));
    Onwards(s, s1, t);
  }

  lemma WithdrawalObserved(s: Sys) returns (t: Sys)
    requires s.pc.Retiring? && Pend(s.db, s.pc.r) && At(s.db, s.pc.r, Stage.Withdrawn) && AtSavedGate(s, s.pc.r)
    requires DrainedAt(s, Candidate(s.pc.r)) && s.svc.value.target == s.db.checkpoints[s.pc.r].intent.pred
    requires s.db.requests[s.pc.r].previous.Some? ==> RunningAt(s, s.svc.value.target.sel)
    ensures Reaches(s, t) && t == s.(pc := Committing(s.pc.r, Outcome.Withdrawn))
  {
    Stay(s);
    Then(s, s, ObserveWithdrawn);
    var s1 := Next(s, ObserveWithdrawn);
    Then(s, s1, Recheck);
    t := Next(s1, Recheck);
  }

  lemma WithdrawnFinalizes(d: AppData, r: Req)
    requires DbInv(d) && Pend(d, r) && At(d, r, Stage.Withdrawn)
    ensures Finalizable(d, r, Outcome.Withdrawn, d.checkpoints[r].saved)
  {
    assert BoundOK(d, r) && RequestOK(d, r);
  }

  lemma WithdrawalCommits(s: Sys, r: Req) returns (t: Sys)
    requires s.pc == Committing(r, Outcome.Withdrawn) && DbInv(s.db) && Pend(s.db, r) && At(s.db, r, Stage.Withdrawn)
    ensures Reaches(s, t) && t == s.(db := t.db, pc := Idle) && Ended(t.db, r, Outcome.Withdrawn) && NoPending(t.db)
  {
    WithdrawnFinalizes(s.db, r);
    Stay(s);
    Then(s, s, Commit);
    t := Next(s, Commit);
    assert forall q :: Pend(t.db, q) ==> Pend(s.db, q);
  }

  /** The predecessor that the request fell back to runs, if it has one. */
  predicate PredecessorRuns(s: Sys, r: Req, target: Target) {
    r in s.db.requests && (s.db.requests[r].previous.Some? ==> RunningAt(s, target.sel))
  }

  lemma WithdrawnGone(s: Sys, r: Req) returns (t: Sys)
    requires Pend(s.db, r) && At(s.db, r, Stage.Withdrawn) && AtSavedGate(s, r)
    requires s.svc.value.target == s.db.checkpoints[r].intent.pred && s.svc.value.target.sel != Candidate(r)
    requires FallsBack(s.db, r, s.svc.value.target) && PredecessorRuns(s, r, s.svc.value.target)
    ensures Reaches(s, t) && t.pc == Committing(r, Outcome.Withdrawn) && t.svc == s.svc
    ensures t.db == s.db.(withdrawals := s.db.withdrawals + {r})
  {
    var s1 := RetiringReached(s, r);
    var s2 := CandidateGone(s1);
    Onwards(s, s1, s2);
    t := WithdrawalObserved(s2);
    Onwards(s, s2, t);
  }

  /** From a withdrawn checkpoint at its recorded gate the request is committed as withdrawn. */
  lemma WithdrawnCompletes(s: Sys, r: Req) returns (t: Sys)
    requires Inv(s) && Pend(s.db, r) && At(s.db, r, Stage.Withdrawn) && AtSavedGate(s, r)
    requires s.svc.value.target == s.db.checkpoints[r].intent.pred
    requires FallsBack(s.db, r, s.svc.value.target) && PredecessorRuns(s, r, s.svc.value.target)
    ensures Reaches(s, t) && Ended(t.db, r, Outcome.Withdrawn) && NoPending(t.db) && t.svc == s.svc && t.pc.Idle?
  {
    assert IntentOK(s, r);
    var s1 := WithdrawnGone(s, r);
    ReachesKeepsInv(s, s1);
    t := WithdrawalCommits(s1, r);
    Onwards(s, s1, t);
  }

  // ------------------------------------------------------- with a checkpoint

  /** What a started recovery needs to find: the Service not taken by a deletion, the saved target the one an
      initial candidate must have, or running, and a withdrawn checkpoint still at its gate. */
  predicate Withdrawable(s: Sys, r: Req) {
    && Pend(s.db, r) && r in s.db.checkpoints && s.svc.Some?
    && var c := s.db.checkpoints[r];
       && !Hijacked(c.intent, s.svc.value) && FallsBack(s.db, r, c.intent.pred)
       && PredecessorRuns(s, r, c.intent.pred) && (c.stage == Stage.Withdrawn ==> AtSavedGate(s, r))
  }

  lemma StartedWithdraws(s: Sys, r: Req) returns (t: Sys)
    requires Inv(s) && Withdrawable(s, r)
    ensures Reaches(s, t) && Ended(t.db, r, Outcome.Withdrawn) && NoPending(t.db) && t.pc.Idle?
    ensures t.svc.Some? && t.svc.value.op == ByRecovery(r) && t.svc.value.deleting == s.svc.value.deleting
    ensures t.svc.value.target == s.db.checkpoints[r].intent.pred
  {
    var s1 := RecoveryConvergesFrom(s, r);
    ReachesKeepsInv(s, s1);
    t := WithdrawnCompletes(s1, r);
    Onwards(s, s1, t);
  }

  // ---------------------------------------------------- without a checkpoint

  /** What prepareUnstartedRecovery accepts. */
  ghost predicate Startable(s: Sys, r: Req) {
    && Pend(s.db, r) && r !in s.db.checkpoints
    && var q := s.db.requests[r];
       if q.previous.Some?
       then s.svc.Some? && RunningAt(s, s.svc.value.target.sel)
            && s.svc.value.target.port == q.previous.value.desired.port
       else s.svc.None? || s.svc.value.target == InactiveTarget(r, q.cfg) || exists prior :: Reusable(s, r, prior)
  }

  lemma PreparingReached(s: Sys, r: Req) returns (t: Sys)
    requires Pend(s.db, r) && r !in s.db.checkpoints
    ensures Reaches(s, t)
    ensures t == s.(db := s.db.(withdrawals := s.db.withdrawals + {r}), pc := Preparing(r, true))
  {
    t := RecoveryStarts(s, r);
  }

  /** A Service is captured that the request may fall back to. */
  ghost predicate CapturedBy(s: Sys, t: Sys, r: Req) {
    && Reaches(s, t) && t.svc.Some? && t.pc == Captured(r, t.svc.value, true)
    && t.db == s.db && t.workloads == s.workloads
    && t.svc.value.deleting == (if s.svc.Some? then s.svc.value.deleting else None)
    && FallsBack(t.db, r, t.svc.value.target) && PredecessorRuns(t, r, t.svc.value.target)
  }

  lemma CaptureReady(s: Sys, r: Req) returns (t: Sys)
    requires s.pc == Preparing(r, true) && Pend(s.db, r) && Enabled(s, PrepareReady)
    ensures CapturedBy(s, t, r)
  {
    Stay(s);
    Then(s, s, PrepareReady);
    t := Next(s, PrepareReady);
  }

  lemma CaptureCreated(s: Sys, r: Req) returns (t: Sys)
    requires s.pc == Preparing(r, true) && Pend(s.db, r) && s.db.requests[r].previous.None? && s.svc.None?
    ensures CapturedBy(s, t, r)
  {
    var s1 := CreateLands(s);
    t := CaptureReady(s1, r);
    Onwards(s, s1, t);
  }

  lemma CaptureRebound(s: Sys, r: Req, prior: Req) returns (t: Sys)
    requires s.pc == Preparing(r, true) && Pend(s.db, r) && s.db.requests[r].previous.None? && Reusable(s, r, prior)
    ensures CapturedBy(s, t, r)
  {
    t := RebindReplied(s, prior);
  }

  lemma Captures(s: Sys, r: Req) returns (t: Sys)
    requires s.pc == Preparing(r, true) && Startable(s, r)
    ensures CapturedBy(s, t, r)
  {
    var q := s.db.requests[r];
    if q.previous.None? && s.svc.None? {
      t := CaptureCreated(s, r);
    } else if q.previous.None? && s.svc.value.target != InactiveTarget(r, q.cfg) {
      var prior :| Reusable(s, r, prior);
      t := CaptureRebound(s, r, prior);
    } else {
      t := CaptureReady(s, r);
    }
  }

  lemma IntentSavedBy(s: Sys, r: Req) returns (t: Sys)
    requires s.svc.Some? && s.pc == Captured(r, s.svc.value, true) && Pend(s.db, r) && r !in s.db.checkpoints
    requires FallsBack(s.db, r, s.svc.value.target) && PredecessorRuns(s, r, s.svc.value.target)
    ensures Reaches(s, t) && Withdrawable(t, r) && t.svc == s.svc
  {
    Stay(s);
    Then(s, s, SaveIntent);
    t := Next(s, SaveIntent);
  }

  lemma UnstartedWithdraws(s: Sys, r: Req) returns (t: Sys)
    requires Inv(s) && Startable(s, r)
    ensures Reaches(s, t) && Ended(t.db, r, Outcome.Withdrawn) && NoPending(t.db) && t.pc.Idle? && t.svc.Some?
    ensures t.svc.value.deleting == (if s.svc.Some? then s.svc.value.deleting else None)
  {
    var s1 := PreparingReached(s, r);
    if prior :| Reusable(s, r, prior) {
      assert Reusable(s1, r, prior);
    }
    var s2 := Captures(s1, r);
    Onwards(s, s1, s2);
    var s3 := IntentSavedBy(s2, r);
    Onwards(s, s2, s3);
    ReachesKeepsInv(s, s3);
    t := StartedWithdraws(s3, r);
    Onwards(s, s3, t);
  }

  // ----------------------------------------------------------------- all runs

  /** On a run that keeps the barrier a started recovery finds what it needs, except perhaps that an API
      server that renumbers idle updates moved a withdrawn Service off its gate. */
  lemma StartedIsWithdrawable(s: Sys, r: Req)
    requires Inv(s) && StartInv(s) && Pend(s.db, r) && r in s.db.checkpoints
    requires At(s.db, r, Stage.Withdrawn) ==> AtSavedGate(s, r)
    ensures Withdrawable(s, r)
  {
    UnmarkedNotHijacked(s, r);
    assert IntentOK(s, r);
  }

  /** What one undisturbed RecoverDeployRequest needs: a checkpoint that, if withdrawn, still is at its gate, or
      a Service that is fit to be captured. */
  ghost predicate Recoverable(s: Sys, r: Req) {
    if r in s.db.checkpoints then At(s.db, r, Stage.Withdrawn) ==> AtSavedGate(s, r) else Startable(s, r)
  }

  /** From any crash point of any run that keeps the barrier, in every environment, it then commits the pending
      request as withdrawn. */
  lemma RecoverySuffices(s: Sys, r: Req) returns (t: Sys)
    requires Inv(s) && StartInv(s) && Pend(s.db, r) && Recoverable(s, r)
    ensures Reaches(s, t) && Ended(t.db, r, Outcome.Withdrawn)
  {
    if r in s.db.checkpoints {
      StartedIsWithdrawable(s, r);
      t := StartedWithdraws(s, r);
    } else {
      t := UnstartedWithdraws(s, r);
    }
  }
}
