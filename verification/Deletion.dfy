/** A deletion that crashed anywhere behind its mark can be run again and finishes, exactly when the mark
    is intact and nothing is pending; otherwise no run whatever removes the Service. */
module Deletion {
  import opened Types
  import opened Store
  import opened Machine
  import opened Invariant
  import opened Reach
  import opened Life
  import opened Runs
  import opened Safety
  import opened Barrier
  import opened Marks

  /** A new DeleteApp call recognises the mark and goes on under the same gate. */
  lemma DeletionResumes(s: Sys) returns (t: Sys)
    requires Intact(s) && NoPending(s.db) && s.db.bindings != map[]
    ensures Reaches(s, t) && t == s.(pc := DeleteFenced(GateOf(s.svc.value)))
  {
    LockFreed(s);
    var s1 := s.(pc := Idle);
    assert !Busy(s.db);
    DeletionStarts(s1);
    var s2 := s.(pc := Deleting);
    Onwards(s, s1, s2);
    Then(s, s2, DeleteResume);
    t := Next(s2, DeleteResume);
  }

  /** No workload appeared except tombstones of recorded generations. */
  ghost predicate OnlyBound(s: Sys, t: Sys) {
    forall g :: g in t.workloads ==> g in s.workloads || (g.Candidate? && g.r in s.db.bindings)
  }

  /** Only workload writes and pods changed, and nothing that was drained came back. */
  ghost predicate OnlyDrained(s: Sys, t: Sys) {
    && t == s.(workloads := t.workloads, wwrites := t.wwrites)
    && (forall g :: DrainedAt(s, g) ==> DrainedAt(t, g))
    && OnlyBound(s, t)
  }

  lemma DrainsOne(s: Sys, g: Req) returns (t: Sys)
    requires s.pc.DeleteFenced? && g in s.db.bindings
    ensures Reaches(s, t) && OnlyDrained(s, t) && DrainedAt(t, Candidate(g))
  {
    Stay(s);
    Then(s, s, DeleteRetire(g));
    var s1 := Next(s, DeleteRetire(g));
    t := RetiredDrains(s1, Candidate(g));
    Onwards(s, s1, t);
  }

  lemma {:induction false} DrainsAll(s: Sys, todo: set<Req>) returns (t: Sys)
    requires s.pc.DeleteFenced?
    requires todo <= s.db.bindings.Keys
    requires forall r :: r in s.db.bindings && r !in todo ==> DrainedAt(s, Candidate(r))
    ensures Reaches(s, t) && OnlyDrained(s, t) && AllDrained(t)
    decreases todo
  {
    if todo == {} {
      t := s;
      Stay(s);
    } else {
      var g :| g in todo;
      var u := DrainsOne(s, g);
      t := DrainsAll(u, todo - {g});
      Onwards(s, u, t);
    }
  }

  lemma LegacyDrains(s: Sys) returns (t: Sys)
    requires s.pc.DeleteDrained? && AtMarkedGate(s, s.pc.gate) && AllDrained(s)
    ensures Reaches(s, t) && OnlyDrained(s, t) && LegacyGone(t)
  {
    Stay(s);
    if Legacy in s.workloads {
      Then(s, s, DeleteRetireLegacy);
      var s1 := Next(s, DeleteRetireLegacy);
      t := RetiredDrains(s1, Legacy);
      Onwards(s, s1, t);
    } else {
      t := s;
    }
  }

  lemma RowsGo(s: Sys) returns (t: Sys)
    requires s.pc.DeleteDrained? && AtMarkedGate(s, s.pc.gate) && AllDrained(s) && LegacyGone(s)
    ensures Reaches(s, t) && t == s.(db := MarkDeletedTx(DeleteRoutesTx(s.db)), pc := DeleteRowed(s.pc.gate))
  {
    Stay(s);
    Then(s, s, DeleteClean);
    var s1 := Next(s, DeleteClean);
    Then(s, s1, DeleteRoutes);
    var s2 := Next(s1, DeleteRoutes);
    Then(s, s2, DeleteRow);
    t := Next(s2, DeleteRow);
  }

  lemma ServiceGoes(s: Sys) returns (t: Sys)
    requires s.pc.DeleteRowed? && AtMarkedGate(s, s.pc.gate) && AllDrained(s) && LegacyGone(s)
    ensures Reaches(s, t) && t.svc.None? && t.db == s.db && t.pc.Idle?
    ensures s.writes <= t.writes && t.env == s.env && t.workloads == s.workloads
  {
    Stay(s);
    Then(s, s, DeleteFinish);
    var s1 := Next(s, DeleteFinish);
    var w := Remove(s.svc.value.rv);
    assert s1.pc == Await(KRemove, w) && CanLand(s1, w);
    Then(s, s1, Land(w));
    t := Next(s1, Land(w));
  }

  lemma PodsGo(s: Sys) returns (t: Sys)
    requires s.pc.DeleteFenced? && AtMarkedGate(s, s.pc.gate)
    ensures Reaches(s, t) && t == s.(pc := DeleteDrained(s.pc.gate), workloads := t.workloads, wwrites := t.wwrites)
    ensures AllDrained(t) && LegacyGone(t) && OnlyBound(s, t)
  {
    var s1 := DrainsAll(s, s.db.bindings.Keys);
    Then(s, s1, DeleteDrain);
    var s2 := Next(s1, DeleteDrain);
    t := LegacyDrains(s2);
    Onwards(s, s2, t);
  }

  lemma MarksHold(s0: Sys, acts: seq<Action>)
    requires Init(s0) && ValidRun(s0, acts)
    ensures Inv(Exec(s0, acts)) && MarkInv(Exec(s0, acts))
  {
    InitInv(s0);
    RunKeepsMarks(s0, acts);
  }

  /** In every environment and wherever the previous attempt stopped: behind an intact mark, with nothing
      pending, a re-run continues the same deletion operation and, undisturbed, ends with the row
      deleted, the route gone and the Service removed. */
  lemma DeletionFinishes(s0: Sys, acts: seq<Action>) returns (m: Sys, t: Sys)
    requires Init(s0) && ValidRun(s0, acts) && Intact(Exec(s0, acts)) && NoPending(Exec(s0, acts).db)
    ensures Reaches(Exec(s0, acts), m) && m.pc == DeleteFenced(GateOf(Exec(s0, acts).svc.value))
    ensures m.svc == Exec(s0, acts).svc && m.db == Exec(s0, acts).db
    ensures Reaches(m, t) && t.svc.None? && t.db == MarkDeletedTx(DeleteRoutesTx(m.db)) && t.pc.Idle?
    ensures t.db.row.Some? && t.db.row.value.deleted && t.db.route.None?
  {
    MarksHold(s0, acts);
    m := DeletionResumes(Exec(s0, acts));
    t := FencedFinishes(m);
  }

  lemma FencedFinishes(s: Sys) returns (t: Sys)
    requires s.pc.DeleteFenced? && AtMarkedGate(s, s.pc.gate)
    ensures Reaches(s, t) && t.svc.None? && t.db == MarkDeletedTx(DeleteRoutesTx(s.db)) && t.pc.Idle?
    ensures s.writes <= t.writes && t.env == s.env && OnlyBound(s, t) && AllDrained(t) && LegacyGone(t)
  {
    var s1 := PodsGo(s);
    var s2 := RowsGo(s1);
    Onwards(s, s1, s2);
    t := ServiceGoes(s2);
    Onwards(s, s2, t);
  }

  lemma MarkLands(s: Sys) returns (t: Sys)
    requires s.pc.Deleting? && s.db.row.Some? && s.svc.Some? && !Marked(s)
    ensures Reaches(s, t) && t.pc.DeleteFenced? && AtMarkedGate(t, t.pc.gate) && s.writes <= t.writes
    ensures t == s.(svc := t.svc, nextRv := t.nextRv, nextUid := t.nextUid, writes := t.writes, pc := t.pc)
  {
    Stay(s);
    Then(s, s, DeleteMark);
    var s1 := Next(s, DeleteMark);
    assert CanLand(s1, s1.pc.w);
    t := AwaitedLands(s1);
    Onwards(s, s1, t);
  }

  /** A deletion that nothing disturbs goes from the mark to the removal. */
  lemma DeletionCompletes(s: Sys) returns (t: Sys)
    requires s.pc.Idle? && !Busy(s.db) && s.db.row.Some? && s.db.bindings != map[] && s.svc.Some? && !Marked(s)
    ensures Reaches(s, t) && t.pc.Idle? && t.svc.None? && t.db == MarkDeletedTx(DeleteRoutesTx(s.db))
    ensures t.env == s.env && s.writes <= t.writes && OnlyBound(s, t) && AllDrained(t) && LegacyGone(t)
  {
    DeletionStarts(s);
    var s1 := s.(pc := Deleting);
    var s2 := MarkLands(s1);
    Onwards(s, s1, s2);
    t := FencedFinishes(s2);
    Onwards(s, s2, t);
  }

  lemma TombstoneCreated(s: Sys) returns (t: Sys)
    requires s.pc.Deleting? && s.db.row.Some? && s.db.row.value.deleted && s.svc.None?
    ensures Reaches(s, t) && t.pc.DeleteFenced? && AtMarkedGate(t, t.pc.gate) && t.db == s.db
  {
    Stay(s);
    Then(s, s, DeleteCreate);
    var s1 := Next(s, DeleteCreate);
    assert CanLand(s1, s1.pc.w);
    t := AwaitedLands(s1);
    Onwards(s, s1, t);
  }

  /** An application that is hidden already, and has no Service, is deleted under a new marked one. */
  lemma HiddenDeletionCompletes(s: Sys) returns (t: Sys)
    requires s.pc.Idle? && !Busy(s.db) && s.db.row.Some? && s.db.row.value.deleted && s.db.bindings != map[]
    requires s.svc.None?
    ensures Reaches(s, t) && t.pc.Idle? && t.svc.None? && t.db == MarkDeletedTx(DeleteRoutesTx(s.db))
    ensures AllDrained(t) && LegacyGone(t)
  {
    DeletionStarts(s);
    var s1 := s.(pc := Deleting);
    var s2 := TombstoneCreated(s1);
    Onwards(s, s1, s2);
    t := FencedFinishes(s2);
    Onwards(s, s2, t);
  }

  // -------------------------------------------------------------- a broken mark

  /** The mark is not intact, nothing is pending, and no removal is in flight for this Service. */
  ghost predicate Dead(s: Sys) {
    && Inv(s) && Marked(s) && NoPending(s.db) && !Intact(s) && NoRemovalAhead(s)
    && (s.pc.Idle? || s.pc.Deleting? || s.pc.Reclaiming?)
  }

  lemma DeadLanding(s: Sys, w: Write)
    requires Dead(s) && Enabled(s, Land(w))
    ensures var t := Next(s, Land(w));
            && t == s.(svc := t.svc, nextRv := t.nextRv, nextUid := t.nextUid) && t.svc.Some?
            && (t.svc == s.svc || t.svc == Some(s.svc.value.(rv := s.nextRv)))
  {
    assert WriteOK(s, w);
    if w.Update? {
      SealedLanding(s, w);
    }
  }

  lemma DeadOther(s: Sys, a: Action)
    requires Dead(s) && Enabled(s, a) && !a.Land?
    ensures var t := Next(s, a);
            && t.svc == s.svc && t.db == s.db && t.writes == s.writes
            && (t.pc.Idle? || t.pc.Deleting? || t.pc.Reclaiming?)
  {
    if OnlyReads(a) {
      DeadRead(s, a);
    } else {
      DeadSends(s, a);
    }
  }

  lemma DeadRead(s: Sys, a: Action)
    requires Marked(s) && NoPending(s.db) && !Intact(s) && Enabled(s, a) && OnlyReads(a)
    requires s.pc.Idle? || s.pc.Deleting? || s.pc.Reclaiming?
    ensures Next(s, a).pc.Idle? || Next(s, a).pc.Deleting? || Next(s, a).pc.Reclaiming?
  {
    if a.StartAdvance? {
      assert !Pend(s.db, a.r);
    }
  }

  lemma DeadSends(s: Sys, a: Action)
    requires Marked(s) && NoPending(s.db) && Enabled(s, a) && !OnlyReads(a) && !a.Land?
    requires s.pc.Idle? || s.pc.Deleting? || s.pc.Reclaiming?
    ensures a.StartRecover? || a.LandWorkload? || a.Drain?
    ensures Next(s, a).svc == s.svc && Next(s, a).db == s.db && Next(s, a).writes == s.writes
    ensures Next(s, a).pc == s.pc
  {
    if a.StartRecover? {
      assert !Pend(s.db, a.r);
    }
  }

  /** Nothing brings a broken mark back into order, and nothing removes the Service. */
  lemma DeadStays(s: Sys, a: Action)
    requires Dead(s) && Enabled(s, a)
    ensures Dead(Next(s, a))
  {
    StepKeepsInv(s, a);
    if a.Land? {
      DeadLanding(s, a.w);
      forall x | x in s.writes && x.Remove? ensures !Hits(Next(s, a).svc, x.rv) {
        assert WriteOK(s, x);
      }
    } else {
      DeadOther(s, a);
    }
  }

  lemma {:induction false} DeadForever(s: Sys, acts: seq<Action>)
    requires Dead(s) && ValidRun(s, acts)
    ensures Dead(Exec(s, acts))
    decreases |acts|
  {
    if acts != [] {
      DeadStays(s, acts[0]);
      DeadForever(Next(s, acts[0]), acts[1..]);
    }
  }

  lemma BrokenIsDead(s: Sys)
    requires Inv(s) && MarkInv(s) && (s.pc.Idle? || s.pc.Reclaiming?) && Marked(s) && NoPending(s.db) && !Intact(s)
    ensures Dead(s)
  {
  }

  /** Deploys and withdrawals are refused because of the mark, deletions because it is not intact. */
  lemma DeadRefuses(s: Sys, a: Action)
    requires Dead(s)
    requires a.StartDeploy? || a.StartWithdraw? || a.DeleteMark? || a.DeleteCreate? || a.DeleteResume?
    ensures !Enabled(s, a)
  {
  }

  /** The application is lost: every state that any run reaches from here is dead. */
  lemma BrokenForever(s0: Sys, s: Sys, u: Sys)
    requires Init(s0) && Reaches(s0, s) && Reaches(s, u)
    requires (s.pc.Idle? || s.pc.Reclaiming?) && Marked(s) && NoPending(s.db) && !Intact(s)
    ensures Dead(u)
  {
    var acts :| ValidRun(s0, acts) && Exec(s0, acts) == s;
    MarksHold(s0, acts);
    BrokenIsDead(s);
    var more :| ValidRun(s, more) && Exec(s, more) == u;
    DeadForever(s, more);
  }

  // -------------------------------------------------------- exactly when it ends

  /** The mark cannot end in a removal: it is not intact, or a request is pending behind it. */
  ghost predicate Locked(s: Sys) {
    Inv(s) && MarkInv(s) && Marked(s) && !(Intact(s) && NoPending(s.db))
  }

  /** On a marked Service no removal lands unless the mark is intact and nothing is pending, and no update
      makes a broken mark intact. */
  lemma LockedLanding(s: Sys, w: Write)
    requires WritesInv(s) && RemovalsIntact(s) && Marked(s) && Enabled(s, Land(w))
    requires !(Intact(s) && NoPending(s.db))
    ensures var t := Next(s, Land(w)); Marked(t) && t.db == s.db && !(Intact(t) && NoPending(t.db))
  {
    assert WriteOK(s, w);
  }

  /** When a request ends behind a mark, its own operation or recovery identity is on the Service. */
  lemma CommitBreaksMark(s: Sys)
    requires PcInv(s) && PendInv(s) && Enabled(s, Commit) && s.svc.Some?
    ensures !s.svc.value.op.ByDeletion?
  {
    assert Tracks(s.env, s.pc.r, s.db.checkpoints[s.pc.r], s.svc.value);
  }

  lemma LockedTransaction(s: Sys, a: Action)
    requires Locked(s) && Enabled(s, a) && TouchesDb(a)
    ensures var t := Next(s, a); Marked(t) && !(Intact(t) && NoPending(t.db))
  {
    ServiceUntouched(s, a);
    if a == Commit {
      CommitBreaksMark(s);
    } else if NoPending(s.db) {
      MarkedHasRow(s);
      RowStays(s, a);
    } else {
      var r :| Pend(s.db, r);
      OthersEndNothing(s, a, r);
    }
  }

  lemma MarkedHasRow(s: Sys)
    requires DbInv(s.db) && MarksBound(s) && Marked(s)
    ensures s.db.row.Some?
  {
    var r :| r in s.db.bindings;
    assert BoundOK(s.db, r);
  }

  lemma LockedStays(s: Sys, a: Action)
    requires Locked(s) && Enabled(s, a)
    ensures Locked(Next(s, a))
  {
    StepKeepsInv(s, a);
    StepKeepsMarks(s, a);
    if a.Land? {
      LockedLanding(s, a.w);
    } else if TouchesDb(a) {
      LockedTransaction(s, a);
    } else {
      ServiceUntouched(s, a);
      DbUntouched(s, a);
    }
  }

  lemma {:induction false} LockedForever(s: Sys, acts: seq<Action>)
    requires Locked(s) && ValidRun(s, acts)
    ensures Locked(Exec(s, acts))
    decreases |acts|
  {
    if acts != [] {
      LockedStays(s, acts[0]);
      LockedForever(Next(s, acts[0]), acts[1..]);
    }
  }

  /** In every environment, for every marked state and whoever holds the lock: some run brings it to the removal
      of its Service if and only if the mark is intact and nothing is pending; and then one more
      deletion call does it. */
  lemma ResumeExactly(s0: Sys, acts: seq<Action>)
    requires Init(s0) && ValidRun(s0, acts) && Marked(Exec(s0, acts))
    ensures var s := Exec(s0, acts);
            (exists t :: Reaches(s, t) && t.svc.None?) <==> Intact(s) && NoPending(s.db)
  {
    MarksHold(s0, acts);
    var s := Exec(s0, acts);
    if Intact(s) && NoPending(s.db) {
      var m, t := DeletionFinishes(s0, acts);
      Onwards(s, m, t);
    } else {
      forall t | Reaches(s, t) ensures t.svc.Some? {
        var more :| ValidRun(s, more) && Exec(s, more) == t;
        LockedForever(s, more);
      }
    }
  }

  /** The case that a deletion call meets: nothing is pending, so only the mark matters. */
  lemma QuietResumeExactly(s0: Sys, acts: seq<Action>)
    requires Init(s0) && ValidRun(s0, acts) && Marked(Exec(s0, acts)) && NoPending(Exec(s0, acts).db)
    ensures (exists t :: Reaches(Exec(s0, acts), t) && t.svc.None?) <==> Intact(Exec(s0, acts))
  {
    ResumeExactly(s0, acts);
  }
}
