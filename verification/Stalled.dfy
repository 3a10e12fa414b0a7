/** Pending requests that no run whatever ends: one without checkpoint whose Service cannot be captured, one
    whose Service a deletion mark took after it was captured, and a withdrawn one off its gate. */
module Stalled {
  import opened Types
  import opened Store
  import opened Machine
  import opened Invariant
  import opened Life
  import opened Runs
  import opened Safety
  import opened Reach
  import opened Reuse

  // ------------------------------------------------------ without a checkpoint

  /** Nobody is past the preparation of a request. */
  predicate Before(pc: Pc) {
    pc.Idle? || pc.Checked? || pc.Preparing? || pc.Reclaiming?
  }

  /** The Service cannot be captured. For an initial request: there is one, it is not inactive for this request
      and cannot be rebound to it. Otherwise: there is none and none is coming, or the request is to
      be withdrawn and the Service selects nothing or has another port than the predecessor. */
  ghost predicate Blocked(s: Sys, r: Req)
    requires r in s.db.requests
  {
    var q := s.db.requests[r];
    if q.previous.None? then
      s.svc.Some? && s.svc.value.target != InactiveTarget(r, q.cfg) && !SomePrior(s, r)
    else if s.svc.None? then
      forall w :: w in s.writes ==> !w.Bootstrap? && !w.Tombstone?
    else
      && r in s.db.withdrawals
      && (s.svc.value.target.sel.Inactive? || s.svc.value.target.port != q.previous.value.desired.port)
  }

  ghost predicate Unstartable(s: Sys, r: Req) {
    && Inv(s) && ReuseInv(s) && Before(s.pc)
    && Pend(s.db, r) && r !in s.db.checkpoints && Blocked(s, r)
  }

  /** All that can happen to the Service of an unstarted request: nothing, a renumbering, or a mark. */
  predicate SameOrMarked(s: Sys, t: Sys) {
    && s.svc.Some? && t.svc.Some?
    && (|| t.svc == s.svc
        || t.svc == Some(s.svc.value.(rv := s.nextRv))
        || (t.svc.value.op.ByDeletion? && t.svc.value.target.sel == Inactive(t.svc.value.op)))
  }

  lemma RestoreIsIdle(s: Sys, v: Service, target: Target, r: Req)
    requires DbInv(s.db) && SvcInv(s) && s.svc == Some(v) && Pend(s.db, r) && r !in s.db.checkpoints
    requires ChangeOK(s, v, Retarget(target))
    ensures target == v.target
  {
    var q := v.op.r;
    assert q in s.db.checkpoints && RequestOK(s.db, q);
    assert !Pend(s.db, q);
  }

  lemma UnstartedUpdate(s: Sys, w: Write, r: Req)
    requires DbInv(s.db) && SvcInv(s) && WritesInv(s) && RebindsAllowed(s) && MarksInactive(s)
    requires Pend(s.db, r) && r !in s.db.checkpoints && Blocked(s, r) && Enabled(s, Land(w)) && w.Update?
    ensures SameOrMarked(s, Next(s, Land(w)))
  {
    assert WriteOK(s, w);
    UnstartedChange(s, s.svc.value, w.change, r);
    if w.change.Retarget? {
      RestoreIsIdle(s, s.svc.value, w.change.target, r);
    } else {
      assert w.change.target.sel == Inactive(ByDeletion(w.change.appId));
    }
  }

  /** No fence and no rebind can land on the Service of a blocked request. */
  lemma UnstartedChange(s: Sys, v: Service, c: Change, r: Req)
    requires OnePending(s.db) && s.svc == Some(v) && ChangeOK(s, v, c) && (c.Rebind? ==> SomePrior(s, c.r))
    requires Pend(s.db, r) && r !in s.db.checkpoints && Blocked(s, r)
    ensures c.Retarget? || c.Mark?
  {
  }

  /** A renumbered or marked Service is no more reusable than before. */
  lemma NoNewPrior(s: Sys, t: Sys, r: Req)
    requires IntentInv(s) && SameOrMarked(s, t) && t.db == s.db && t.workloads == s.workloads && !SomePrior(s, r)
    ensures !SomePrior(t, r)
  {
    forall prior ensures !Reusable(t, r, prior) {
      if t.svc == s.svc {
        assert !Reusable(s, r, prior);
      } else if prior in s.db.checkpoints {
        assert IntentOK(s, prior);
      }
    }
  }

  lemma UnstartedLanding(s: Sys, w: Write, r: Req)
    requires Unstartable(s, r) && Enabled(s, Land(w))
    ensures Blocked(Next(s, Land(w)), r)
  {
    assert WriteOK(s, w);
    assert w.Update?;
    UnstartedUpdate(s, w, r);
    if s.db.requests[r].previous.None? {
      NoNewPrior(s, Next(s, Land(w)), r);
    }
  }

  lemma LandingKeepsBefore(s: Sys, w: Write)
    requires Enabled(s, Land(w)) && Before(s.pc)
    ensures Next(s, Land(w)).pc == s.pc && Next(s, Land(w)).db == s.db
  {
  }

  // -------------------------------------------------------------- other steps

  lemma UnstartedReads(s: Sys, a: Action, r: Req)
    requires DbInv(s.db) && PcInv(s) && NoInactive(s) && Before(s.pc)
    requires Pend(s.db, r) && r !in s.db.checkpoints && Blocked(s, r) && Enabled(s, a) && OnlyReads(a)
    ensures Before(Next(s, a).pc)
  {
    assert Busy(s.db);
    BlockedNotReady(s, r);
    if a.StartAdvance? {
      UnstartedAdvances(s.db, r, a.r);
    } else {
      OtherReads(s, a);
    }
  }

  lemma BlockedNotReady(s: Sys, r: Req)
    requires OnePending(s.db) && PcInv(s) && NoInactive(s)
    requires Pend(s.db, r) && r !in s.db.checkpoints && Blocked(s, r)
    ensures !Enabled(s, PrepareReady)
  {
  }

  lemma UnstartedAdvances(d: AppData, r: Req, q: Req)
    requires OnePending(d) && Pend(d, r) && r !in d.checkpoints
    ensures Before(AdvanceFrom(d, q))
  {
  }

  lemma OtherReads(s: Sys, a: Action)
    requires Before(s.pc) && Busy(s.db) && Enabled(s, a) && OnlyReads(a) && !a.PrepareReady? && !a.StartAdvance?
    ensures Before(Next(s, a).pc)
  {
  }

  lemma UnstartedBegins(s: Sys, a: Action, r: Req)
    requires DbInv(s.db) && Pend(s.db, r) && r !in s.db.checkpoints && Enabled(s, a) && a.Begin?
    ensures Before(Next(s, a).pc) && s.db.withdrawals <= Next(s, a).db.withdrawals
    ensures Next(s, a).db == s.db.(withdrawals := Next(s, a).db.withdrawals)
  {
    assert Busy(s.db);
  }

  lemma UnstartedTransacts(s: Sys, a: Action, r: Req)
    requires DbInv(s.db) && PcInv(s) && Before(s.pc)
    requires Pend(s.db, r) && r !in s.db.checkpoints && Enabled(s, a) && TouchesDb(a)
    ensures Before(Next(s, a).pc) && s.db.withdrawals <= Next(s, a).db.withdrawals
    ensures Next(s, a).db == s.db.(withdrawals := Next(s, a).db.withdrawals)
  {
    if a.Begin? {
      UnstartedBegins(s, a, r);
    }
  }

  lemma UnstartedSends(s: Sys, a: Action, r: Req)
    requires DbInv(s.db) && PcInv(s) && Before(s.pc) && Pend(s.db, r) && r !in s.db.checkpoints && Blocked(s, r)
    requires Enabled(s, a) && !a.Land? && !OnlyReads(a) && !TouchesDb(a)
    ensures a.LandWorkload? || a.Drain?
  {
    if SendsWrite(a) {
      BeforeSends(s, a);
      BlockedNotCreated(s, a, r);
    }
  }

  lemma BeforeSends(s: Sys, a: Action)
    requires Before(s.pc) && Enabled(s, a) && SendsWrite(a)
    ensures s.pc.Preparing? && (a.PrepareCreate? || a.PrepareRebind?)
  {
  }

  lemma BlockedNotCreated(s: Sys, a: Action, r: Req)
    requires OnePending(s.db) && PcInv(s) && s.pc.Preparing? && (a.PrepareCreate? || a.PrepareRebind?)
    requires Pend(s.db, r) && r !in s.db.checkpoints && Blocked(s, r)
    ensures !Enabled(s, a)
  {
    assert s.pc.r == r;
    if a.PrepareRebind? && s.db.requests[r].previous.None? {
      assert !Reusable(s, r, a.prior);
    }
  }

  lemma ClusterMoves(s: Sys, a: Action)
    requires Enabled(s, a) && (a.LandWorkload? || a.Drain?)
    ensures Next(s, a) == s.(workloads := Next(s, a).workloads)
  {
  }

  /** What keeps the Service as it is keeps it blocked. */
  lemma BlockedStays(s: Sys, t: Sys, r: Req)
    requires WithdrawnDrained(s) && r in s.db.requests && Blocked(s, r) && t.svc == s.svc && t.writes == s.writes
    requires t.db == s.db.(withdrawals := t.db.withdrawals) && s.db.withdrawals <= t.db.withdrawals
    ensures Blocked(t, r)
  {
    if s.db.requests[r].previous.None? {
      forall prior ensures !Reusable(t, r, prior) {
        assert !Reusable(s, r, prior);
      }
    }
  }

  lemma UnstartableStays(s: Sys, a: Action, r: Req)
    requires Unstartable(s, r) && Enabled(s, a)
    ensures Unstartable(Next(s, a), r)
  {
    StepKeepsInv(s, a);
    StepKeepsReuse(s, a);
    if a.Land? {
      LandingKeepsBefore(s, a.w);
      UnstartedLanding(s, a.w, r);
    } else {
      UnstartedStep(s, a, r);
      BlockedStays(s, Next(s, a), r);
    }
  }

  /** Nothing happened to a waiting request, except perhaps that a withdrawal was noted. */
  predicate OnlyNotes(s: Sys, t: Sys) {
    && Before(t.pc) && t.svc == s.svc && t.writes == s.writes
    && t.db == s.db.(withdrawals := t.db.withdrawals) && s.db.withdrawals <= t.db.withdrawals
  }

  lemma ReadsOnlyNote(s: Sys, a: Action, r: Req)
    requires DbInv(s.db) && PcInv(s) && NoInactive(s) && Before(s.pc)
    requires Pend(s.db, r) && r !in s.db.checkpoints && Blocked(s, r) && Enabled(s, a) && OnlyReads(a)
    ensures OnlyNotes(s, Next(s, a))
  {
    UnstartedReads(s, a, r);
    ReadFrame(s, a);
  }

  lemma TransactionsOnlyNote(s: Sys, a: Action, r: Req)
    requires DbInv(s.db) && PcInv(s) && Before(s.pc)
    requires Pend(s.db, r) && r !in s.db.checkpoints && Enabled(s, a) && TouchesDb(a)
    ensures OnlyNotes(s, Next(s, a))
  {
    UnstartedTransacts(s, a, r);
    TransactionFrame(s, a);
  }

  lemma SendsOnlyNote(s: Sys, a: Action, r: Req)
    requires DbInv(s.db) && PcInv(s) && Before(s.pc) && Pend(s.db, r) && r !in s.db.checkpoints && Blocked(s, r)
    requires Enabled(s, a) && !a.Land? && !OnlyReads(a) && !TouchesDb(a)
    ensures OnlyNotes(s, Next(s, a))
  {
    UnstartedSends(s, a, r);
    ClusterMoves(s, a);
  }

  lemma UnstartedStep(s: Sys, a: Action, r: Req)
    requires DbInv(s.db) && PcInv(s) && NoInactive(s) && Before(s.pc)
    requires Pend(s.db, r) && r !in s.db.checkpoints && Blocked(s, r) && Enabled(s, a) && !a.Land?
    ensures OnlyNotes(s, Next(s, a))
  {
    if OnlyReads(a) {
      ReadsOnlyNote(s, a, r);
    } else if TouchesDb(a) {
      TransactionsOnlyNote(s, a, r);
    } else {
      SendsOnlyNote(s, a, r);
    }
  }

  lemma ReadFrame(s: Sys, a: Action)
    requires Enabled(s, a) && OnlyReads(a)
    ensures Next(s, a) == s.(pc := Next(s, a).pc)
  {
  }

  lemma TransactionFrame(s: Sys, a: Action)
    requires Enabled(s, a) && TouchesDb(a)
    ensures Next(s, a).svc == s.svc && Next(s, a).writes == s.writes
  {
  }

  lemma {:induction false} UnstartableForever(s: Sys, acts: seq<Action>, r: Req)
    requires Unstartable(s, r) && ValidRun(s, acts)
    ensures Unstartable(Exec(s, acts), r)
    decreases |acts|
  {
    if acts != [] {
      UnstartableStays(s, acts[0], r);
      UnstartableForever(Next(s, acts[0]), acts[1..], r);
    }
  }

  // --------------------------------------------- caught between capture and fence

  /** A deletion mark landed after the request captured the Service: neither its fence nor its recovery may
      touch what belongs to the deletion, and the deletion may not go on while it is pending. */
  ghost predicate Caught(s: Sys, r: Req) {
    && Inv(s) && Pend(s.db, r) && r in s.db.checkpoints
    && s.svc.Some? && Hijacked(s.db.checkpoints[r].intent, s.svc.value)
  }

  lemma CaughtNoChange(s: Sys, v: Service, c: Change, r: Req)
    requires r in s.db.checkpoints && OnePending(s.db) && IntentOK(s, r) && s.svc == Some(v) && OpOK(s.db, v)
    requires Pend(s.db, r) && Hijacked(s.db.checkpoints[r].intent, v)
    ensures !ChangeOK(s, v, c)
  {
  }

  lemma CaughtLandsNothing(s: Sys, w: Write, r: Req)
    requires OnePending(s.db) && SvcInv(s) && IntentInv(s) && WritesInv(s)
    requires Pend(s.db, r) && r in s.db.checkpoints && s.svc.Some?
    requires Hijacked(s.db.checkpoints[r].intent, s.svc.value)
    ensures !Enabled(s, Land(w))
  {
    if w in s.writes {
      assert WriteOK(s, w) && IntentOK(s, r);
      if w.Update? {
        CaughtNoChange(s, s.svc.value, w.change, r);
      }
    }
  }

  lemma CaughtEndsNothing(s: Sys, r: Req)
    requires OnePending(s.db) && PendInv(s) && PcInv(s) && Pend(s.db, r) && r in s.db.checkpoints
    requires s.svc.Some? && Hijacked(s.db.checkpoints[r].intent, s.svc.value)
    ensures !s.pc.Committing?
  {
    assert Tracks(s.env, r, s.db.checkpoints[r], s.svc.value);
  }

  lemma CaughtStays(s: Sys, a: Action, r: Req)
    requires Caught(s, r) && Enabled(s, a)
    ensures Caught(Next(s, a), r) && Next(s, a).svc == s.svc
    ensures s.db.row.Some? ==> SameRow(s.db.row, Next(s, a).db.row)
  {
    StepKeepsInv(s, a);
    StepOnward(s, a);
    CaughtEndsNothing(s, r);
    if a.Land? {
      CaughtLandsNothing(s, a.w, r);
    } else {
      ServiceUntouched(s, a);
      PendingStays(s, a, r);
      RowKept(s, a);
      assert CheckpointOnward(s.db.checkpoints[r], Next(s, a).db.checkpoints[r]);
    }
  }

  /** Everything that a deletion mark is made of. */
  predicate SameRow(row: Option<AppRow>, row': Option<AppRow>) {
    row.Some? && row'.Some? && row'.value.id == row.value.id && row'.value.desired == row.value.desired
  }

  lemma RowKept(s: Sys, a: Action)
    requires Enabled(s, a) && a != Commit
    ensures s.db.row.Some? ==> SameRow(s.db.row, Next(s, a).db.row)
  {
    if !TouchesDb(a) {
      DbUntouched(s, a);
    }
  }

  lemma PendingStays(s: Sys, a: Action, r: Req)
    requires Inv(s) && Enabled(s, a) && a != Commit && Pend(s.db, r)
    ensures Pend(Next(s, a).db, r)
  {
    if !Pend(Next(s, a).db, r) {
      OnlyCommitEnds(s, a, r);
    }
  }

  lemma {:induction false} CaughtForever(s: Sys, acts: seq<Action>, r: Req)
    requires Caught(s, r) && ValidRun(s, acts)
    ensures Caught(Exec(s, acts), r) && Exec(s, acts).svc == s.svc
    ensures s.db.row.Some? ==> SameRow(s.db.row, Exec(s, acts).db.row)
    decreases |acts|
  {
    if acts != [] {
      CaughtStays(s, acts[0], r);
      CaughtForever(Next(s, acts[0]), acts[1..], r);
    }
  }

  /** Neither fence, nor recovery fence, nor deletion is possible. */
  lemma CaughtRefuses(s: Sys, r: Req, a: Action)
    requires Caught(s, r) && (a.DispatchFence? || a.DispatchRecoveryFence? || a.StartDelete?)
    ensures !Enabled(s, a)
  {
    if a.DispatchFence? {
      CaughtNoFence(s, r);
    } else if a.DispatchRecoveryFence? {
      CaughtNoRecovery(s, r);
    } else {
      BusyNoDeletion(s, r);
    }
  }

  lemma BusyNoDeletion(s: Sys, r: Req)
    requires Pend(s.db, r)
    ensures !Enabled(s, StartDelete)
  {
    assert Busy(s.db);
  }

  lemma CaughtNoFence(s: Sys, r: Req)
    requires OnePending(s.db) && PcInv(s) && Pend(s.db, r) && r in s.db.checkpoints
    requires s.svc.Some? && Hijacked(s.db.checkpoints[r].intent, s.svc.value)
    ensures !Enabled(s, DispatchFence)
  {
  }

  lemma CaughtNoRecovery(s: Sys, r: Req)
    requires OnePending(s.db) && PcInv(s) && Pend(s.db, r) && r in s.db.checkpoints
    requires s.svc.Some? && Hijacked(s.db.checkpoints[r].intent, s.svc.value)
    ensures !Enabled(s, DispatchRecoveryFence)
  {
  }

  // ------------------------------------------------------- withdrawn, off the gate

  /** The Service left the recorded gate of a withdrawn request that nobody is committing. */
  ghost predicate OffGate(s: Sys, r: Req) {
    && Inv(s) && Pend(s.db, r) && At(s.db, r, Stage.Withdrawn) && !AtSavedGate(s, r)
    && !s.pc.Observed? && !s.pc.Committing?
  }

  lemma LandingStaysOff(s: Sys, w: Write, r: Req)
    requires IntentInv(s) && r in s.db.checkpoints && !AtSavedGate(s, r) && s.svc.Some? && Enabled(s, Land(w))
    ensures !AtSavedGate(Next(s, Land(w)), r)
  {
    assert IntentOK(s, r);
  }

  lemma OffGateObserves(s: Sys, r: Req)
    requires OnePending(s.db) && PcInv(s) && Pend(s.db, r) && At(s.db, r, Stage.Withdrawn) && !AtSavedGate(s, r)
    ensures !Enabled(s, ObserveApplied) && !Enabled(s, ObserveWithdrawn)
  {
  }

  lemma OtherReadsObserveNothing(s: Sys, a: Action)
    requires Enabled(s, a) && OnlyReads(a) && !s.pc.Observed? && !a.ObserveApplied? && !a.ObserveWithdrawn?
    ensures !Next(s, a).pc.Observed? && !Next(s, a).pc.Committing?
  {
  }

  lemma OthersObserveNothing(s: Sys, a: Action)
    requires Enabled(s, a) && !OnlyReads(a) && !s.pc.Observed? && !s.pc.Committing?
    ensures !Next(s, a).pc.Observed? && !Next(s, a).pc.Committing?
  {
    if TouchesDb(a) {
      TransactionPc(s, a);
    } else if a.Land? {
      LandingObservesNothing(s, a.w);
    }
  }

  lemma LandingObservesNothing(s: Sys, w: Write)
    requires Enabled(s, Land(w)) && !s.pc.Observed? && !s.pc.Committing?
    ensures !Next(s, Land(w)).pc.Observed? && !Next(s, Land(w)).pc.Committing?
  {
  }

  lemma OffGateStays(s: Sys, a: Action, r: Req)
    requires OffGate(s, r) && Enabled(s, a)
    ensures OffGate(Next(s, a), r)
  {
    StepKeepsInv(s, a);
    PendingStays(s, a, r);
    WithdrawnCheckpointStays(s, a, r);
    OffGateObserves(s, r);
    if OnlyReads(a) {
      OtherReadsObserveNothing(s, a);
    } else {
      OthersObserveNothing(s, a);
    }
    OffStaysOff(s, a, r);
  }

  lemma WithdrawnCheckpointStays(s: Sys, a: Action, r: Req)
    requires KeysOK(s.db) && Enabled(s, a) && At(s.db, r, Stage.Withdrawn)
    ensures r in Next(s, a).db.checkpoints && Next(s, a).db.checkpoints[r] == s.db.checkpoints[r]
  {
    StepOnward(s, a);
    assert CheckpointOnward(s.db.checkpoints[r], Next(s, a).db.checkpoints[r]);
  }

  lemma OffStaysOff(s: Sys, a: Action, r: Req)
    requires IntentInv(s) && At(s.db, r, Stage.Withdrawn) && !AtSavedGate(s, r) && s.svc.Some? && Enabled(s, a)
    requires r in Next(s, a).db.checkpoints && Next(s, a).db.checkpoints[r] == s.db.checkpoints[r]
    ensures !AtSavedGate(Next(s, a), r)
  {
    if a.Land? {
      LandingStaysOff(s, a.w, r);
    } else {
      ServiceUntouched(s, a);
    }
  }

  lemma {:induction false} OffGateForever(s: Sys, acts: seq<Action>, r: Req)
    requires OffGate(s, r) && ValidRun(s, acts)
    ensures OffGate(Exec(s, acts), r)
    decreases |acts|
  {
    if acts != [] {
      OffGateStays(s, acts[0], r);
      OffGateForever(Next(s, acts[0]), acts[1..], r);
    }
  }

  // ------------------------------------------------------------------ for ever

  /** None of the three ever ends. */
  lemma StalledForever(s: Sys, t: Sys, r: Req)
    requires Reaches(s, t) && (Unstartable(s, r) || Caught(s, r) || OffGate(s, r))
    ensures Pend(t.db, r)
  {
    var acts :| ValidRun(s, acts) && Exec(s, acts) == t;
    if Unstartable(s, r) {
      UnstartableForever(s, acts, r);
    } else if Caught(s, r) {
      CaughtForever(s, acts, r);
    } else {
      OffGateForever(s, acts, r);
    }
  }
}
