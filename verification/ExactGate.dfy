/** Receipts are committed at the recorded gate, to the resourceVersion, exactly when the API server
    leaves the resourceVersion alone for an update that changes nothing. */
module ExactGate {
  import opened Types
  import opened Store
  import opened Machine
  import opened Invariant
  import opened Life
  import opened Runs
  import opened Reach
  import opened Stalled
  import opened Convergence
  import opened Withdrawing
  import opened LateMark
  import Landing

  /** A request is about to be committed only while the Service sits at its recorded gate. */
  predicate CommitsAtGate(s: Sys) {
    s.pc.Committing? && Pend(s.db, s.pc.r) ==> AtSavedGate(s, s.pc.r)
  }

  const Pred := Target(Legacy, 80)
  const FirstRow := AppRow(1, Cfg, false)

  /** Request 1 was begun as a withdrawal over the legacy application and its rows are complete. */
  predicate Journalled(s: Sys, stage: Stage) {
    && s.db.row == Some(FirstRow) && RunningAt(s, Legacy)
    && 1 in s.db.requests && s.db.requests[1] == Request(Pending, Cfg, true, Some(FirstRow), None)
    && 1 in s.db.bindings && s.db.bindings[1] == Binding(1, 11)
    && 11 in s.db.deployments && s.db.deployments[11] == Deployment(1, Pending)
    && At(s.db, 1, stage) && s.db.checkpoints[1].intent == Intent(Cfg, Gate(0, 0, Unset), Pred)
    && (stage == Recovering ==> s.db.checkpoints[1].saved == RecoveryId(1))
  }

  const Fenced1 := Service(0, 1, ByRecovery(1), Pred, None, None)

  lemma Begins(env: Env) returns (t: Sys)
    ensures Reaches(LegacyApp(env), t) && t.pc == Preparing(1, true)
    ensures t == LegacyApp(env).(db := t.db, pc := t.pc) && 1 !in t.db.checkpoints
    ensures 1 in t.db.requests && t.db.requests[1] == Request(Pending, Cfg, true, Some(FirstRow), None)
    ensures 1 in t.db.bindings && t.db.bindings[1] == Binding(1, 11) && t.db.row == Some(FirstRow)
    ensures 11 in t.db.deployments && t.db.deployments[11] == Deployment(1, Pending)
  {
    var s := LegacyApp(env);
    Stay(s);
    Then(s, s, StartWithdraw(1, Cfg));
    var s1 := Next(s, StartWithdraw(1, Cfg));
    Then(s, s1, Begin(0, 11, true));
    t := Next(s1, Begin(0, 11, true));
  }

  lemma Captures(s: Sys) returns (t: Sys)
    requires s.pc == Preparing(1, true) && Pend(s.db, 1) && 1 !in s.db.checkpoints
    requires s.svc.Some? && RunningAt(s, s.svc.value.target.sel)
    requires s.db.requests[1].previous.Some? && s.svc.value.target.port == s.db.requests[1].previous.value.desired.port
    ensures Reaches(s, t)
    ensures var intent := Intent(s.db.requests[1].cfg, GateOf(s.svc.value), s.svc.value.target);
            t == s.(db := s.db.(checkpoints := s.db.checkpoints[1 := Checkpoint(Prepared, intent, Empty)]),
                    pc := Restoring(1))
  {
    Stay(s);
    Then(s, s, PrepareReady);
    var s1 := Next(s, PrepareReady);
    Then(s, s1, SaveIntent);
    t := Next(s1, SaveIntent);
  }

  lemma Fences(env: Env) returns (t: Sys)
    ensures Reaches(LegacyApp(env), t) && Journalled(t, Recovering) && t.env == env && t.nextRv == 2
    ensures t.svc == Some(Fenced1) && t.pc == Got(KRecoveryFence(1), GateOf(Fenced1))
  {
    var s := LegacyApp(env);
    var s1 := Begins(env);
    var s2 := Captures(s1);
    Onwards(s, s1, s2);
    var s3 := RecoveringReached(s2, 1);
    Onwards(s, s2, s3);
    t := RecoveryFenceReached(s3);
    Onwards(s, s3, t);
  }

  /** The restore is sent and its caller dies. */
  lemma RestoreLeft(s: Sys, w: Write) returns (t: Sys)
    requires s.pc == Got(KRecoveryFence(1), GateOf(Fenced1)) && s.svc == Some(Fenced1)
    requires Journalled(s, Recovering) && w == Update(1, Retarget(Pred))
    ensures Reaches(s, t) && t == s.(writes := s.writes + {w}, pc := Idle)
  {
    var s1 := RestoreSent(s, 1);
    LockFreed(s1);
    t := s1.(pc := Idle);
    Onwards(s, s1, t);
  }

  /** A second recovery finds nothing left to restore. */
  lemma NothingToRestore(s: Sys) returns (t: Sys)
    requires s.svc == Some(Fenced1) && Journalled(s, Recovering)
    ensures Reaches(s, t) && Journalled(t, Stage.Withdrawn) && t == s.(db := t.db, pc := Retiring(1))
    ensures t.db.checkpoints[1].saved == Token(GateOf(Fenced1))
  {
    var s1 := RecoveringReached(s, 1);
    var s2 := RestoreSkipped(s1);
    Onwards(s, s1, s2);
    Then(s, s2, RecordWithdrawn);
    t := Next(s2, RecordWithdrawn);
  }

  lemma RestoreLandsLate(s: Sys, w: Write) returns (t: Sys)
    requires s.pc == Committing(1, Outcome.Withdrawn) && s.svc == Some(Fenced1) && s.env.bumps && s.nextRv == 2
    requires Journalled(s, Stage.Withdrawn) && s.db.checkpoints[1].saved == Token(GateOf(Fenced1))
    requires w == Update(1, Retarget(Pred)) && w in s.writes
    ensures Reaches(s, t) && t == s.(svc := Some(Fenced1.(rv := 2)), nextRv := 3, nextUid := t.nextUid)
  {
    Stay(s);
    assert CanLand(s, w);
    Then(s, s, Land(w));
    t := Next(s, Land(w));
  }

  lemma CommitsAnyway(s: Sys)
    requires s.pc == Committing(1, Outcome.Withdrawn) && s.svc == Some(Fenced1.(rv := 2))
    requires Journalled(s, Stage.Withdrawn) && s.db.checkpoints[1].saved == Token(GateOf(Fenced1))
    ensures !CommitsAtGate(s) && Enabled(s, Commit) && Ended(Next(s, Commit).db, 1, Outcome.Withdrawn)
  {
    assert Finalizable(s.db, 1, Outcome.Withdrawn, s.db.checkpoints[1].saved);
  }

  lemma SecondRecovery(env: Env, w: Write) returns (t: Sys)
    requires w == Update(1, Retarget(Pred))
    ensures Reaches(LegacyApp(env), t) && t.env == env && t.nextRv == 2 && w in t.writes
    ensures t.pc == Retiring(1) && t.svc == Some(Fenced1) && Journalled(t, Stage.Withdrawn)
    ensures t.db.checkpoints[1].saved == Token(GateOf(Fenced1))
  {
    var s := LegacyApp(env);
    var s1 := Fences(env);
    var s2 := RestoreLeft(s1, w);
    Onwards(s, s1, s2);
    t := NothingToRestore(s2);
    Onwards(s, s2, t);
  }

  lemma LateRestore(s: Sys, w: Write) returns (t: Sys)
    requires s.env.bumps && s.nextRv == 2 && w == Update(1, Retarget(Pred)) && w in s.writes
    requires s.pc == Retiring(1) && s.svc == Some(Fenced1) && Journalled(s, Stage.Withdrawn)
    requires s.db.checkpoints[1].saved == Token(GateOf(Fenced1))
    ensures Reaches(s, t) && !CommitsAtGate(t)
    ensures Enabled(t, Commit) && Ended(Next(t, Commit).db, 1, Outcome.Withdrawn)
  {
    var s1 := CandidateGone(s);
    var s2 := WithdrawalObserved(s1);
    Onwards(s, s1, s2);
    t := RestoreLandsLate(s2, w);
    Onwards(s, s2, t);
    CommitsAnyway(t);
  }

  lemma BumpMovesGate(env: Env) returns (t: Sys)
    requires env.bumps
    ensures Init(LegacyApp(env)) && Reaches(LegacyApp(env), t) && !CommitsAtGate(t)
    ensures Enabled(t, Commit) && Ended(Next(t, Commit).db, 1, Outcome.Withdrawn)
  {
    var s := SecondRecovery(env, Update(1, Retarget(Pred)));
    t := LateRestore(s, Update(1, Retarget(Pred)));
    Onwards(LegacyApp(env), s, t);
  }

  lemma CommitAtGate(s: Sys)
    requires PendInv(s) && PcInv(s) && !s.env.bumps
    ensures CommitsAtGate(s)
  {
    if s.pc.Committing? && Pend(s.db, s.pc.r) {
      assert Tracks(s.env, s.pc.r, s.db.checkpoints[s.pc.r], s.svc.value);
    }
  }

  /** Every commit happens at the recorded gate if and only if idle updates are not renumbered. */
  lemma GateExact(env: Env)
    ensures (forall s0, s :: Init(s0) && s0.env == env && Reaches(s0, s) ==> CommitsAtGate(s)) <==> !env.bumps
  {
    if env.bumps {
      var t := BumpMovesGate(env);
    } else {
      forall s0, s | Init(s0) && s0.env == env && Reaches(s0, s) ensures CommitsAtGate(s) {
        InitInv(s0);
        ReachesKeepsInv(s0, s);
        WritesStay(s0, s);
        CommitAtGate(s);
      }
    }
  }

  // ---------------------------------------------------------------- single runs

  /** The step lands an update that changes nothing, and the Service is renumbered all the same. */
  predicate Renumbers(s: Sys, a: Action) {
    && a.Land? && a.w.Update? && s.svc.Some? && a.w in s.writes && Hits(s.svc, a.w.rv)
    && Changed(s.svc.value, a.w.change) == s.svc.value && s.env.bumps
  }

  /** On the Service of a withdrawn request nothing lands but a repeated restore. */
  lemma WithdrawnLanding(s: Sys, w: Write, r: Req)
    requires DbInv(s.db) && PendInv(s) && IntentInv(s) && WritesInv(s)
    requires Pend(s.db, r) && At(s.db, r, Stage.Withdrawn) && Enabled(s, Land(w))
    ensures s.svc.Some? && w.Update? && Changed(s.svc.value, w.change) == s.svc.value
  {
    assert Tracks(s.env, r, s.db.checkpoints[r], s.svc.value);
    PendingUpdate(s, w, r);
    Landing.OwnedUpdate(s, s.svc.value, w.change, r);
  }

  /** Whatever lands on the Service while a request is pending is an update. */
  lemma PendingUpdate(s: Sys, w: Write, r: Req)
    requires WritesInv(s) && Pend(s.db, r) && s.svc.Some? && Enabled(s, Land(w))
    ensures w.Update? && ChangeOK(s, s.svc.value, w.change)
  {
    assert WriteOK(s, w);
  }

  lemma LandingKeepsGate(s: Sys, w: Write, r: Req)
    requires DbInv(s.db) && PendInv(s) && IntentInv(s) && WritesInv(s)
    requires Pend(s.db, r) && At(s.db, r, Stage.Withdrawn) && AtSavedGate(s, r) && Enabled(s, Land(w))
    ensures AtSavedGate(Next(s, Land(w)), r) <==> !Renumbers(s, Land(w))
  {
    WithdrawnLanding(s, w, r);
    assert IntentOK(s, r);
  }

  lemma GateKeptStep(s: Sys, a: Action, r: Req)
    requires Inv(s) && Pend(s.db, r) && At(s.db, r, Stage.Withdrawn) && AtSavedGate(s, r) && Enabled(s, a)
    ensures AtSavedGate(Next(s, a), r) <==> !Renumbers(s, a)
    ensures At(Next(s, a).db, r, Stage.Withdrawn)
  {
    WithdrawnCheckpointStays(s, a, r);
    if a.Land? {
      LandingKeepsGate(s, a.w, r);
    } else {
      ServiceUntouched(s, a);
    }
  }

  ghost predicate NeverRenumbered(s: Sys, acts: seq<Action>)
    requires ValidRun(s, acts)
    decreases |acts|
  {
    acts == [] || (!Renumbers(s, acts[0]) && NeverRenumbered(Next(s, acts[0]), acts[1..]))
  }

  /** Once off the gate, the Service stays off it while the request is pending. */
  lemma {:induction false} OffRun(s: Sys, acts: seq<Action>, r: Req)
    requires Inv(s) && ValidRun(s, acts) && At(s.db, r, Stage.Withdrawn) && !AtSavedGate(s, r)
    requires Pend(Exec(s, acts).db, r)
    ensures !AtSavedGate(Exec(s, acts), r)
    decreases |acts|
  {
    if acts != [] {
      StepKeepsInv(s, acts[0]);
      WithdrawnCheckpointStays(s, acts[0], r);
      PendedBefore(s, acts, r);
      OffStaysOff(s, acts[0], r);
      OffRun(Next(s, acts[0]), acts[1..], r);
    }
  }

  /** A request that is pending at the end, and recorded at the start, was pending all the time. */
  lemma PendedBefore(s: Sys, acts: seq<Action>, r: Req)
    requires Inv(s) && ValidRun(s, acts) && r in s.db.checkpoints && Pend(Exec(s, acts).db, r)
    ensures Pend(s.db, r) && s.svc.Some?
  {
    RunKeepsInv(s, acts);
    assert RequestOnward(s.db.requests[r], Exec(s, acts).db.requests[r]);
  }

  /** In every environment and for every run: a withdrawn request that was recorded at the gate of the Service,
      and is still pending, is at that gate, to the resourceVersion, if and only if no idle update was
      renumbered since. So exactly then is it committed at the recorded gate. */
  lemma {:induction false} GateKeptExactly(s: Sys, acts: seq<Action>, r: Req)
    requires Inv(s) && ValidRun(s, acts) && At(s.db, r, Stage.Withdrawn) && AtSavedGate(s, r)
    requires Pend(Exec(s, acts).db, r)
    ensures AtSavedGate(Exec(s, acts), r) <==> NeverRenumbered(s, acts)
    decreases |acts|
  {
    if acts != [] {
      PendedBefore(s, acts, r);
      StepKeepsInv(s, acts[0]);
      GateKeptStep(s, acts[0], r);
      if Renumbers(s, acts[0]) {
        OffRun(Next(s, acts[0]), acts[1..], r);
      } else {
        GateKeptExactly(Next(s, acts[0]), acts[1..], r);
      }
    }
  }
}
