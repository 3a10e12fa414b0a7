/** Recovery converges: wherever the previous attempt stopped, one undisturbed recovery ends
    withdrawn, with the Service back on the saved predecessor under the recovery identity. */
module Convergence {
  import opened Types
  import opened Store
  import opened Machine
  import opened Invariant
  import opened Reach
  import opened Barrier
  import opened Initial

  /** What RestoreCandidateTraffic demands of the rows and of the Service it finds. */
  predicate Restorable(d: AppData, svc: Option<Service>, r: Req) {
    && Pend(d, r) && r in d.checkpoints
    && var c := d.checkpoints[r];
       && c.intent.cfg == d.requests[r].cfg && c.intent.gate.op != ByRecovery(r)
       && if c.stage == Stage.Withdrawn
          then c.saved.Token? && c.saved.gate.uid == c.intent.gate.uid && c.saved.gate.op == ByRecovery(r)
          else
            && (c.stage == Recovering ==> c.saved == RecoveryId(r))
            && svc.Some? && svc.value.uid == c.intent.gate.uid
            && svc.value.op in {c.intent.gate.op, ByRequest(r), ByRecovery(r)}
  }

  /** A pending request of any reachable state can be recovered, whatever crashed and whatever
      landed unacknowledged, unless a deletion mark took the Service away. */
  lemma RestorableUnlessHijacked(s: Sys, r: Req)
    requires Inv(s) && Pend(s.db, r) && r in s.db.checkpoints
    ensures s.svc.Some?
    ensures Restorable(s.db, s.svc, r) <==> !Hijacked(s.db.checkpoints[r].intent, s.svc.value)
  {
    assert Tracks(s.env, r, s.db.checkpoints[r], s.svc.value);
    assert IntentOK(s, r) && RequestOK(s.db, r);
  }

  /** A Service without mark has not been taken away. */
  lemma UnmarkedNotHijacked(s: Sys, r: Req)
    requires Inv(s) && Sealed(s) && Pend(s.db, r) && r in s.db.checkpoints
    ensures s.svc.Some? && !Hijacked(s.db.checkpoints[r].intent, s.svc.value)
  {
    assert Tracks(s.env, r, s.db.checkpoints[r], s.svc.value);
    assert !Marked(s);
  }

  // ------------------------------------------------------------ the stages

  function MarkRecovering(c: Checkpoint, r: Req): Checkpoint {
    if c.stage == Recovering then c else c.(stage := Recovering, saved := RecoveryId(r))
  }

  lemma RecoveringReached(s: Sys, r: Req) returns (t: Sys)
    requires Pend(s.db, r) && r in s.db.checkpoints && !At(s.db, r, Stage.Withdrawn)
    requires FallsBack(s.db, r, s.db.checkpoints[r].intent.pred)
    ensures Reaches(s, t)
    ensures t == s.(db := s.db.(withdrawals := s.db.withdrawals + {r},
                                checkpoints := s.db.checkpoints[r := MarkRecovering(s.db.checkpoints[r], r)]),
                    pc := RestoreCapture(r))
  {
    var s1 := RecoveryStarts(s, r);
    Then(s, s1, RecordRecovering);
    t := Next(s1, RecordRecovering);
    assert s.db.checkpoints[r := s.db.checkpoints[r]] == s.db.checkpoints;
  }

  lemma RecoveryFenceReached(s: Sys) returns (t: Sys)
    requires s.pc.RestoreCapture? && Restorable(s.db, s.svc, s.pc.r) && At(s.db, s.pc.r, Recovering)
    requires s.svc.value.op != ByRecovery(s.pc.r)
    ensures Reaches(s, t)
    ensures var v := s.svc.value.(op := ByRecovery(s.pc.r), rv := s.nextRv);
            t == s.(svc := Some(v), nextRv := s.nextRv + 1, nextUid := s.nextUid + 1, writes := t.writes,
                    pc := Got(KRecoveryFence(s.pc.r), GateOf(v)))
  {
    var s1 := RecoveryFenceSent(s);
    t := AwaitedLands(s1);
    Onwards(s, s1, t);
  }

  lemma RecoveryFenceSent(s: Sys) returns (t: Sys)
    requires s.pc.RestoreCapture? && Restorable(s.db, s.svc, s.pc.r) && At(s.db, s.pc.r, Recovering)
    requires s.svc.value.op != ByRecovery(s.pc.r)
    ensures Reaches(s, t)
    ensures t == DispatchWrite(s, KRecoveryFence(s.pc.r), Update(s.svc.value.rv, Fence(ByRecovery(s.pc.r))))
  {
    Stay(s);
    Then(s, s, DispatchRecoveryFence);
    t := Next(s, DispatchRecoveryFence);
  }

  lemma RestoreReached(s: Sys, r: Req) returns (t: Sys)
    requires s.svc.Some? && At(s.db, r, Recovering) && Restorable(s.db, s.svc, r) && s.svc.value.op == ByRecovery(r)
    requires || s.pc == Got(KRecoveryFence(r), GateOf(s.svc.value))
             || (s.pc == RestoreCapture(r) && s.svc.value.target != s.db.checkpoints[r].intent.pred)
    ensures Reaches(s, t) && t.svc.Some? && t.pc == Got(KRestore(r), GateOf(t.svc.value))
    ensures t.db == s.db && t.workloads == s.workloads
    ensures t.svc.value == s.svc.value.(target := s.db.checkpoints[r].intent.pred, rv := t.svc.value.rv)
  {
    var s1 := RestoreSent(s, r);
    t := AwaitedLands(s1);
    Onwards(s, s1, t);
  }

  lemma RestoreSent(s: Sys, r: Req) returns (t: Sys)
    requires s.svc.Some? && r in s.db.checkpoints && s.svc.value.op == ByRecovery(r)
    requires s.svc.value.uid == s.db.checkpoints[r].intent.gate.uid
    requires || s.pc == Got(KRecoveryFence(r), GateOf(s.svc.value))
             || (s.pc == RestoreCapture(r) && s.svc.value.target != s.db.checkpoints[r].intent.pred)
    ensures Reaches(s, t)
    ensures t == DispatchWrite(s, KRestore(r), Update(s.svc.value.rv, Retarget(s.db.checkpoints[r].intent.pred)))
  {
    Stay(s);
    Then(s, s, DispatchRestore);
    t := Next(s, DispatchRestore);
  }

  lemma RestoreSkipped(s: Sys) returns (t: Sys)
    requires s.pc.RestoreCapture? && s.svc.Some? && s.pc.r in s.db.checkpoints && s.svc.value.op == ByRecovery(s.pc.r)
    requires s.svc.value.uid == s.db.checkpoints[s.pc.r].intent.gate.uid
    requires s.svc.value.target == s.db.checkpoints[s.pc.r].intent.pred
    ensures Reaches(s, t) && t == s.(pc := Got(KRestore(s.pc.r), GateOf(s.svc.value)))
  {
    Stay(s);
    Then(s, s, SkipRestore);
    t := Next(s, SkipRestore);
  }

  lemma RestoredReached(s: Sys) returns (t: Sys)
    requires s.pc.RestoreCapture? && Restorable(s.db, s.svc, s.pc.r) && At(s.db, s.pc.r, Recovering)
    ensures Reaches(s, t) && t.svc.Some? && t.pc == Got(KRestore(s.pc.r), GateOf(t.svc.value))
    ensures t.db == s.db && t.workloads == s.workloads
    ensures t.svc.value == s.svc.value.(op := ByRecovery(s.pc.r), target := s.db.checkpoints[s.pc.r].intent.pred,
                                        rv := t.svc.value.rv)
  {
    if s.svc.value.op != ByRecovery(s.pc.r) {
      var s1 := RecoveryFenceReached(s);
      t := RestoreReached(s1, s.pc.r);
      Onwards(s, s1, t);
    } else if s.svc.value.target != s.db.checkpoints[s.pc.r].intent.pred {
      t := RestoreReached(s, s.pc.r);
    } else {
      t := RestoreSkipped(s);
    }
  }

  /** The Service is back on the saved predecessor, under the recovery identity, and the checkpoint
      says withdrawn. */
  predicate Restored(s: Sys, r: Req, intent: Intent) {
    && At(s.db, r, Stage.Withdrawn) && s.db.checkpoints[r].intent == intent && s.db.checkpoints[r].saved.Token?
    && s.svc.Some? && s.svc.value.op == ByRecovery(r) && s.svc.value.target == intent.pred
    && s.db.checkpoints[r].saved.gate.(rv := s.svc.value.rv) == GateOf(s.svc.value)
  }

  lemma WithdrawnReached(s: Sys, r: Req) returns (t: Sys)
    requires Restorable(s.db, s.svc, r) && !At(s.db, r, Stage.Withdrawn)
    requires FallsBack(s.db, r, s.db.checkpoints[r].intent.pred)
    ensures Reaches(s, t) && Restored(t, r, s.db.checkpoints[r].intent) && AtSavedGate(t, r)
    ensures t.db.requests == s.db.requests && t.workloads == s.workloads
    ensures t.svc.value.deleting == s.svc.value.deleting
  {
    var s1 := RecoveringReached(s, r);
    var s2 := RestoredReached(s1);
    Onwards(s, s1, s2);
    Then(s, s2, RecordWithdrawn);
    t := Next(s2, RecordWithdrawn);
  }

  /** In every environment and from whatever state is found: if no deletion mark took the Service and an
      initial candidate saved its own inactive target, one undisturbed recovery ends withdrawn on the
      saved predecessor; and a request that is withdrawn already stays so. */
  lemma RecoveryConvergesFrom(s: Sys, r: Req) returns (t: Sys)
    requires Inv(s) && Pend(s.db, r) && r in s.db.checkpoints && s.svc.Some?
    requires !Hijacked(s.db.checkpoints[r].intent, s.svc.value)
    requires FallsBack(s.db, r, s.db.checkpoints[r].intent.pred)
    ensures Reaches(s, t) && Restored(t, r, s.db.checkpoints[r].intent)
    ensures At(s.db, r, Stage.Withdrawn) ==> t == s
    ensures !At(s.db, r, Stage.Withdrawn) ==> AtSavedGate(t, r)
    ensures t.db.requests == s.db.requests && t.workloads == s.workloads
    ensures t.svc.value.deleting == s.svc.value.deleting
  {
    RestorableUnlessHijacked(s, r);
    if At(s.db, r, Stage.Withdrawn) {
      t := s;
      Stay(s);
      assert Tracks(s.env, r, s.db.checkpoints[r], s.svc.value);
    } else {
      t := WithdrawnReached(s, r);
    }
  }

  /** On every run that keeps the barrier: from any crash point at any stage, and with any Service write
      landed but not acknowledged, one undisturbed recovery converges. */
  lemma RecoveryConverges(s0: Sys, acts: seq<Action>, r: Req) returns (t: Sys)
    requires Init(s0) && ValidRun(s0, acts) && CarefulRun(s0, acts)
    requires Pend(Exec(s0, acts).db, r) && r in Exec(s0, acts).db.checkpoints
    ensures Reaches(Exec(s0, acts), t) && Restored(t, r, Exec(s0, acts).db.checkpoints[r].intent)
    ensures At(Exec(s0, acts).db, r, Stage.Withdrawn) ==> t == Exec(s0, acts)
    ensures !At(Exec(s0, acts).db, r, Stage.Withdrawn) ==> AtSavedGate(t, r)
  {
    InitInv(s0);
    InitStart(s0);
    RunKeepsStart(s0, acts);
    UnmarkedNotHijacked(Exec(s0, acts), r);
    t := RecoveryConvergesFrom(Exec(s0, acts), r);
  }
}
