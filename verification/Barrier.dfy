/** The deletion barrier: what the deletion mark on the Service guarantees, and exactly which runs
    keep that guarantee. */
module Barrier {
  import opened Types
  import opened Store
  import opened Machine
  import opened Invariant
  import opened Life
  import opened Runs

  predicate Marked(s: Sys) {
    s.svc.Some? && s.svc.value.deleting.Some?
  }

  predicate AimedAt(w: Write, row: Option<AppRow>) {
    && row.Some?
    && var target := DeletionTarget(row.value.id, row.value.desired);
       (w.Update? && w.change == Mark(row.value.id, target)) || w == Tombstone(row.value.id, target)
  }

  /** The mark is complete and is the one this application's row asks for: the guard that a deletion
      call reads before it goes on under an existing mark. */
  predicate Intact(s: Sys) {
    && s.svc.Some? && s.db.row.Some? && MarkedFor(s.svc.value, s.db.row.value)
    && s.svc.value.target == DeletionTarget(s.db.row.value.id, s.db.row.value.desired)
  }

  // -------------------------------------------------- which runs keep the barrier

  /** What the barrier promises: while the mark is on the Service, no request is pending, so none
      was accepted after it, and no generation is selected. */
  ghost predicate BarrierHolds(s: Sys) {
    Marked(s) ==> NoPending(s.db) && s.svc.value.target.sel.Inactive?
  }

  /** The step is a begin that accepts a new request. */
  predicate AcceptsNew(s: Sys, a: Action) {
    && a.Begin? && s.pc.Checked? && s.pc.r !in s.db.bindings
    && BeginTx(s.db, s.pc.r, s.pc.cfg, s.pc.report, a.appId, a.depId, a.free, s.pc.withdraw).Some?
  }

  /** No mark lands on a pending request, and no request is accepted behind a mark. */
  ghost predicate Careful(s: Sys, a: Action) {
    && (a.Land? && IsMark(a.w) ==> NoPending(s.db))
    && (AcceptsNew(s, a) ==> !Marked(s))
  }

  /** A landing that is no mark neither sets nor clears the mark, except by removing the Service. */
  lemma OtherLanding(s: Sys, w: Write)
    requires Enabled(s, Land(w)) && !IsMark(w) && Marked(Next(s, Land(w)))
    ensures Marked(s) && w.Update? && !w.change.Mark?
  {
  }

  /** Behind the barrier an update can only repeat a restore. */
  lemma SealedLanding(s: Sys, w: Write)
    requires DbInv(s.db) && SvcInv(s) && WritesInv(s) && Marked(s) && NoPending(s.db)
    requires w in s.writes && w.Update? && Hits(s.svc, w.rv)
    ensures w.change.Retarget? && s.svc.value.op.ByRecovery? && Changed(s.svc.value, w.change) == s.svc.value
  {
    assert WriteOK(s, w);
    var v := s.svc.value;
    if w.change.Retarget? && v.op.ByRecovery? {
      assert v.op.r in s.db.checkpoints && RequestOK(s.db, v.op.r) && !Pend(s.db, v.op.r);
    }
  }

  lemma MarkLanding(s: Sys, w: Write)
    requires WritesInv(s) && Enabled(s, Land(w)) && IsMark(w)
    ensures var t := Next(s, Land(w)); Marked(t) && t.svc.value.target.sel.Inactive? && t.db == s.db
  {
    assert WriteOK(s, w);
  }

  lemma LandExact(s: Sys, w: Write)
    requires Inv(s) && BarrierHolds(s) && Enabled(s, Land(w))
    ensures BarrierHolds(Next(s, Land(w))) <==> Careful(s, Land(w))
  {
    if IsMark(w) {
      MarkLanding(s, w);
    } else if Marked(Next(s, Land(w))) {
      OtherLanding(s, w);
      SealedLanding(s, w);
    }
  }

  lemma AcceptedPends(s: Sys, a: Action)
    requires Enabled(s, a) && AcceptsNew(s, a)
    ensures Pend(Next(s, a).db, s.pc.r)
  {
  }

  lemma BeginExact(s: Sys, a: Action)
    requires KeysOK(s.db) && BarrierHolds(s) && Enabled(s, a) && a.Begin?
    ensures BarrierHolds(Next(s, a)) <==> Careful(s, a)
  {
    if AcceptsNew(s, a) {
      AcceptedPends(s, a);
    } else {
      assert forall r :: Pend(Next(s, a).db, r) ==> Pend(s.db, r);
    }
  }

  lemma OtherExact(s: Sys, a: Action)
    requires BarrierHolds(s) && Enabled(s, a) && !a.Begin? && !a.Land?
    ensures BarrierHolds(Next(s, a))
  {
    ServiceUntouched(s, a);
    forall r | Pend(Next(s, a).db, r) ensures Pend(s.db, r) {
      NoNewPending(s, a, r);
    }
  }

  /** One step keeps the barrier exactly when it is careful. */
  lemma StepExact(s: Sys, a: Action)
    requires Inv(s) && BarrierHolds(s) && Enabled(s, a)
    ensures BarrierHolds(Next(s, a)) <==> Careful(s, a)
  {
    if a.Land? {
      LandExact(s, a.w);
    } else if a.Begin? {
      BeginExact(s, a);
    } else {
      OtherExact(s, a);
    }
  }

  ghost predicate CarefulRun(s: Sys, acts: seq<Action>)
    requires ValidRun(s, acts)
    decreases |acts|
  {
    acts == [] || (Careful(s, acts[0]) && CarefulRun(Next(s, acts[0]), acts[1..]))
  }

  /** The barrier holds in every state of the run. */
  ghost predicate HoldsThroughout(s: Sys, acts: seq<Action>)
    requires ValidRun(s, acts)
    decreases |acts|
  {
    BarrierHolds(s) && (acts == [] || HoldsThroughout(Next(s, acts[0]), acts[1..]))
  }

  lemma {:induction false} HoldsAtEnd(s: Sys, acts: seq<Action>)
    requires ValidRun(s, acts) && HoldsThroughout(s, acts)
    ensures BarrierHolds(Exec(s, acts))
    decreases |acts|
  {
    if acts != [] {
      HoldsAtEnd(Next(s, acts[0]), acts[1..]);
    }
  }

  lemma {:induction false} RunExact(s: Sys, acts: seq<Action>)
    requires Inv(s) && BarrierHolds(s) && ValidRun(s, acts)
    ensures HoldsThroughout(s, acts) <==> CarefulRun(s, acts)
    decreases |acts|
  {
    if acts != [] {
      StepKeepsInv(s, acts[0]);
      StepExact(s, acts[0]);
      if BarrierHolds(Next(s, acts[0])) {
        RunExact(Next(s, acts[0]), acts[1..]);
      }
    }
  }

  /** In every environment a run keeps the barrier in all its states if and only if no step of it lands
      a mark while a request is pending and no begin accepts a new request behind a mark. */
  lemma BarrierExactly(s0: Sys, acts: seq<Action>)
    requires Init(s0) && ValidRun(s0, acts)
    ensures HoldsThroughout(s0, acts) <==> CarefulRun(s0, acts)
  {
    InitInv(s0);
    RunExact(s0, acts);
  }

  // ------------------------------------------------------ behind the barrier

  /** Nothing is pending behind the mark, and the deletion still owns the Service. */
  ghost predicate Sealed(s: Sys) {
    Marked(s) ==> NoPending(s.db) && s.svc.value.op.ByDeletion?
  }

  lemma RequestsStay(s: Sys, a: Action)
    requires PcInv(s) && KeysOK(s.db) && NoPending(s.db) && Enabled(s, a) && !AcceptsNew(s, a)
    ensures Next(s, a).db.requests == s.db.requests
  {
    if !TouchesDb(a) {
      DbUntouched(s, a);
    }
  }

  /** While sealed, every careful step leaves requests and Service alone until the removal. */
  lemma SealedStep(s: Sys, a: Action)
    requires Inv(s) && Sealed(s) && Marked(s) && Enabled(s, a) && Careful(s, a)
    ensures Next(s, a).db.requests == s.db.requests && !a.StartDeploy? && !a.StartWithdraw?
    ensures if a.Land? then a.w.Remove? && RemovalOK(s, s.svc.value) else Next(s, a).svc == s.svc
  {
    RequestsStay(s, a);
    if a.Land? {
      assert WriteOK(s, a.w);
      if a.w.Update? {
        SealedLanding(s, a.w);
      }
    } else {
      ServiceUntouched(s, a);
    }
  }

  lemma LandKeepsSealed(s: Sys, w: Write)
    requires Inv(s) && Sealed(s) && Enabled(s, Land(w)) && Careful(s, Land(w))
    ensures Sealed(Next(s, Land(w)))
  {
    if Marked(s) {
      SealedStep(s, Land(w));
    } else if Marked(Next(s, Land(w))) && !IsMark(w) {
      OtherLanding(s, w);
    }
  }

  lemma StepKeepsSealed(s: Sys, a: Action)
    requires Inv(s) && Sealed(s) && Enabled(s, a) && Careful(s, a)
    ensures Sealed(Next(s, a))
  {
    if a.Land? {
      LandKeepsSealed(s, a.w);
    } else {
      ServiceUntouched(s, a);
      if Marked(s) {
        SealedStep(s, a);
        assert forall r :: Pend(Next(s, a).db, r) ==> Pend(s.db, r);
      }
    }
  }

  lemma {:induction false} RunKeepsSealed(s: Sys, acts: seq<Action>)
    requires Inv(s) && Sealed(s) && ValidRun(s, acts) && CarefulRun(s, acts)
    ensures Inv(Exec(s, acts)) && Sealed(Exec(s, acts))
    decreases |acts|
  {
    if acts != [] {
      StepKeepsInv(s, acts[0]);
      StepKeepsSealed(s, acts[0]);
      RunKeepsSealed(Next(s, acts[0]), acts[1..]);
    }
  }

  /** In every environment, on a run that keeps the barrier: until the removal that ends the deletion
      lands, every step leaves the marked Service and the set of requests exactly as they are; and that
      removal comes only after the row is deleted and every recorded generation, and the legacy
      workload, is tombstoned and drained. */
  lemma MarkedUntilRemoved(s0: Sys, acts: seq<Action>, a: Action)
    requires Init(s0) && ValidRun(s0, acts) && CarefulRun(s0, acts) && Marked(Exec(s0, acts))
    requires Enabled(Exec(s0, acts), a) && Careful(Exec(s0, acts), a)
    ensures BarrierHolds(Exec(s0, acts))
    ensures Next(Exec(s0, acts), a).db.requests == Exec(s0, acts).db.requests
    ensures !a.StartDeploy? && !a.StartWithdraw?
    ensures var s := Exec(s0, acts);
            if a.Land?
            then && Next(s, a).svc.None? && s.db.row.Some? && s.db.row.value.deleted
                 && AllDrained(s) && LegacyGone(s)
            else Next(s, a).svc == s.svc
  {
    InitInv(s0);
    RunKeepsSealed(s0, acts);
    SealedStep(Exec(s0, acts), a);
  }

  // ---------------------------------------------------- which runs keep the mark intact

  /** A mark on the Service belongs to a deletion that can be resumed. */
  ghost predicate Guarded(s: Sys) {
    Marked(s) ==> NoPending(s.db) && Intact(s)
  }

  /** Careful, and every mark that lands is the one the row asks for at that moment. */
  ghost predicate Aimed(s: Sys, a: Action) {
    && (a.Land? && IsMark(a.w) ==> NoPending(s.db) && AimedAt(a.w, s.db.row))
    && (AcceptsNew(s, a) ==> !Marked(s))
  }

  lemma RowStays(s: Sys, a: Action)
    requires PcInv(s) && NoPending(s.db) && s.db.row.Some? && Enabled(s, a)
    ensures var row := Next(s, a).db.row;
            && row.Some? && row.value.id == s.db.row.value.id && row.value.desired == s.db.row.value.desired
  {
    if !TouchesDb(a) {
      DbUntouched(s, a);
    }
  }

  lemma LandAimed(s: Sys, w: Write)
    requires Inv(s) && Guarded(s) && Enabled(s, Land(w))
    ensures Guarded(Next(s, Land(w))) <==> Aimed(s, Land(w))
  {
    if IsMark(w) {
      assert WriteOK(s, w);
    } else if Marked(Next(s, Land(w))) {
      OtherLanding(s, w);
      SealedLanding(s, w);
    }
  }

  lemma BeginAimed(s: Sys, a: Action)
    requires PcInv(s) && KeysOK(s.db) && Guarded(s) && Enabled(s, a) && a.Begin?
    ensures Guarded(Next(s, a)) <==> Aimed(s, a)
  {
    if AcceptsNew(s, a) {
      AcceptedPends(s, a);
    } else if Marked(s) {
      RequestsStay(s, a);
      RowStays(s, a);
      assert forall r :: Pend(Next(s, a).db, r) ==> Pend(s.db, r);
    }
  }

  lemma OtherAimed(s: Sys, a: Action)
    requires PcInv(s) && Guarded(s) && Enabled(s, a) && !a.Begin? && !a.Land?
    ensures Guarded(Next(s, a))
  {
    ServiceUntouched(s, a);
    if Marked(s) {
      RowStays(s, a);
      forall r | Pend(Next(s, a).db, r) ensures Pend(s.db, r) {
        NoNewPending(s, a, r);
      }
    }
  }

  lemma StepAimed(s: Sys, a: Action)
    requires Inv(s) && Guarded(s) && Enabled(s, a)
    ensures Guarded(Next(s, a)) <==> Aimed(s, a)
  {
    if a.Land? {
      LandAimed(s, a.w);
    } else if a.Begin? {
      BeginAimed(s, a);
    } else {
      OtherAimed(s, a);
    }
  }

  ghost predicate AimedRun(s: Sys, acts: seq<Action>)
    requires ValidRun(s, acts)
    decreases |acts|
  {
    acts == [] || (Aimed(s, acts[0]) && AimedRun(Next(s, acts[0]), acts[1..]))
  }

  /** Every mark met on the run belongs to a deletion that can be resumed. */
  ghost predicate GuardedThroughout(s: Sys, acts: seq<Action>)
    requires ValidRun(s, acts)
    decreases |acts|
  {
    Guarded(s) && (acts == [] || GuardedThroughout(Next(s, acts[0]), acts[1..]))
  }

  lemma {:induction false} RunAimed(s: Sys, acts: seq<Action>)
    requires Inv(s) && Guarded(s) && ValidRun(s, acts)
    ensures GuardedThroughout(s, acts) <==> AimedRun(s, acts)
    decreases |acts|
  {
    if acts != [] {
      StepKeepsInv(s, acts[0]);
      StepAimed(s, acts[0]);
      if Guarded(Next(s, acts[0])) {
        RunAimed(Next(s, acts[0]), acts[1..]);
      }
    }
  }

  /** In every environment all marks met on a run can be resumed, with nothing pending, if and only if
      the run is careful and each mark that lands still is the one the row asks for. */
  lemma ResumableExactly(s0: Sys, acts: seq<Action>)
    requires Init(s0) && ValidRun(s0, acts)
    ensures GuardedThroughout(s0, acts) <==> AimedRun(s0, acts)
  {
    InitInv(s0);
    RunAimed(s0, acts);
  }

  /** In any environment the Service is removed only at the very end of a deletion. */
  lemma RemovalComesLast(s0: Sys, acts: seq<Action>, a: Action)
    requires Init(s0) && ValidRun(s0, acts) && Enabled(Exec(s0, acts), a)
    requires Exec(s0, acts).svc.Some? && Next(Exec(s0, acts), a).svc.None?
    ensures var s := Exec(s0, acts);
            && Marked(s) && NoPending(s.db) && s.db.row.Some? && s.db.row.value.deleted
            && AllDrained(s) && LegacyGone(s)
  {
    InitInv(s0);
    RunKeepsInv(s0, acts);
    assert a.Land? && WriteOK(Exec(s0, acts), a.w);
  }
}
