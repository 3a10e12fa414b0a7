/** Creating, retiring and draining workloads keeps the invariant: traffic never points,
    and can never again point, at a generation for which a tombstone was dispatched. */
module Workloads {
  import opened Types
  import opened Store
  import opened Machine
  import opened Invariant

  function WithRetire(s: Sys, g: Selector): Sys {
    s.(wwrites := s.wwrites + {Retire(g)})
  }

  /** Nothing selects `g`: not the Service, not the predecessor of a pending request, and no
      write that could still land. */
  ghost predicate Unused(s: Sys, g: Selector) {
    && (s.svc.Some? ==> s.svc.value.target.sel != g)
    && (forall r :: Pend(s.db, r) && r in s.db.checkpoints ==> s.db.checkpoints[r].intent.pred.sel != g)
    && (g.Candidate? && Pend(s.db, g.r) ==> At(s.db, g.r, Stage.Withdrawn))
  }

  lemma RetireKeepsCore(s: Sys, g: Selector)
    requires Core(s) && Unused(s, g) && (g.Candidate? ==> g.r in s.db.requests) && (g.Legacy? ==> g in s.workloads)
    ensures Core(WithRetire(s, g))
  {
    var t := WithRetire(s, g);
    forall w | w in t.writes ensures WriteOK(t, w) {
      assert WriteOK(s, w);
    }
    forall r | r in t.db.checkpoints ensures IntentOK(t, r) {
      assert IntentOK(s, r);
    }
  }

  lemma RetireKeepsPc(s: Sys, g: Selector)
    requires PcInv(s) && !s.pc.Captured?
    ensures PcInv(WithRetire(s, g))
  {
  }

  lemma RetireKeepsInv(s: Sys, g: Selector)
    requires Inv(s) && Unused(s, g) && !s.pc.Captured?
    requires (g.Candidate? ==> g.r in s.db.requests) && (g.Legacy? ==> g in s.workloads)
    ensures Inv(WithRetire(s, g))
  {
    RetireKeepsCore(s, g);
    RetireKeepsPc(s, g);
  }

  lemma DeployKeepsCore(s: Sys, r: Req)
    requires Core(s)
    ensures Core(s.(wwrites := s.wwrites + {Deploy(Candidate(r))}))
  {
    var t := s.(wwrites := s.wwrites + {Deploy(Candidate(r))});
    forall w | w in t.writes ensures WriteOK(t, w) {
      assert WriteOK(s, w);
    }
    forall r | r in t.db.checkpoints ensures IntentOK(t, r) {
      assert IntentOK(s, r);
    }
  }

  lemma DeployKeepsInv(s: Sys)
    requires Inv(s) && Enabled(s, DispatchWorkload)
    ensures Inv(Next(s, DispatchWorkload))
  {
    DeployKeepsCore(s, s.pc.r);
  }

  /** The abandoned candidate is retired only after its withdrawn checkpoint is durable. */
  lemma DispatchRetireKeepsInv(s: Sys)
    requires Inv(s) && Enabled(s, DispatchRetire)
    ensures Inv(Next(s, DispatchRetire))
  {
    var g := Candidate(s.pc.r);
    forall r | Pend(s.db, r) && r in s.db.checkpoints ensures s.db.checkpoints[r].intent.pred.sel != g {
      assert IntentOK(s, r);
    }
    RetireKeepsInv(s, g);
  }

  /** While nothing is pending, what the Service does not select is not in use. */
  lemma SettledUses(s: Sys, g: Selector)
    requires NoPending(s.db) && (s.svc.Some? ==> s.svc.value.target.sel != g)
    ensures Unused(s, g)
  {
  }

  lemma SettledRetires(s: Sys, g: Selector)
    requires Inv(s) && NoPending(s.db) && (s.svc.Some? ==> s.svc.value.target.sel != g) && !s.pc.Captured?
    requires (g.Candidate? ==> g.r in s.db.requests) && (g.Legacy? ==> g in s.workloads)
    ensures Inv(WithRetire(s, g))
  {
    SettledUses(s, g);
    RetireKeepsInv(s, g);
  }

  lemma ReclaimRetireIs(s: Sys, g: Req)
    requires KeysOK(s.db) && SvcInv(s) && PcInv(s) && Enabled(s, ReclaimRetire(g))
    ensures NoPending(s.db) && g in s.db.requests && s.svc.Some? && s.svc.value.target.sel != Candidate(g)
    ensures !s.pc.Captured? && Next(s, ReclaimRetire(g)) == WithRetire(s, Candidate(g))
  {
  }

  /** Reclamation retires every generation except the one the Service selects. */
  lemma ReclaimRetireKeepsInv(s: Sys, g: Req)
    requires Inv(s) && Enabled(s, ReclaimRetire(g))
    ensures Inv(Next(s, ReclaimRetire(g)))
  {
    ReclaimRetireIs(s, g);
    SettledRetires(s, Candidate(g));
  }

  lemma ReclaimLegacyIs(s: Sys)
    requires PcInv(s) && Enabled(s, ReclaimLegacy)
    ensures NoPending(s.db) && Legacy in s.workloads && s.svc.Some? && s.svc.value.target.sel != Legacy
    ensures !s.pc.Captured? && Next(s, ReclaimLegacy) == WithRetire(s, Legacy)
  {
  }

  lemma ReclaimLegacyKeepsInv(s: Sys)
    requires Inv(s) && Enabled(s, ReclaimLegacy)
    ensures Inv(Next(s, ReclaimLegacy))
  {
    ReclaimLegacyIs(s);
    SettledRetires(s, Legacy);
  }

  lemma DeleteRetireIs(s: Sys, g: Req)
    requires KeysOK(s.db) && PcInv(s) && Enabled(s, DeleteRetire(g))
    ensures Quiet(s) && g in s.db.requests
    ensures !s.pc.Captured? && Next(s, DeleteRetire(g)) == WithRetire(s, Candidate(g))
  {
  }

  lemma DeleteRetireKeepsInv(s: Sys, g: Req)
    requires Inv(s) && Enabled(s, DeleteRetire(g))
    ensures Inv(Next(s, DeleteRetire(g)))
  {
    DeleteRetireIs(s, g);
    SettledRetires(s, Candidate(g));
  }

  lemma DeleteRetireLegacyIs(s: Sys)
    requires PcInv(s) && Enabled(s, DeleteRetireLegacy)
    ensures Quiet(s) && Legacy in s.workloads
    ensures !s.pc.Captured? && Next(s, DeleteRetireLegacy) == WithRetire(s, Legacy)
  {
  }

  lemma DeleteRetireLegacyKeepsInv(s: Sys)
    requires Inv(s) && Enabled(s, DeleteRetireLegacy)
    ensures Inv(Next(s, DeleteRetireLegacy))
  {
    DeleteRetireLegacyIs(s);
    SettledRetires(s, Legacy);
  }

  // ---------------------------------------------------------------- landing

  lemma WorkloadsKeepCore(s: Sys, workloads: Machine.Workloads)
    requires Core(s)
    requires forall g :: Up(s, g) ==> g in workloads && workloads[g].Running?
    requires forall g :: DrainedAt(s, g) ==> g in workloads && workloads[g] == Retired(true)
    requires Legacy in workloads <==> Legacy in s.workloads
    ensures Core(s.(workloads := workloads))
  {
    var t := s.(workloads := workloads);
    forall w | w in t.writes ensures WriteOK(t, w) {
      assert WriteOK(s, w);
    }
    forall r | r in t.db.checkpoints ensures IntentOK(t, r) {
      assert IntentOK(s, r);
    }
  }

  lemma WorkloadsKeepPc(s: Sys, workloads: Machine.Workloads)
    requires PcInv(s)
    requires forall g :: Up(s, g) ==> g in workloads && workloads[g].Running?
    requires forall g :: DrainedAt(s, g) ==> g in workloads && workloads[g] == Retired(true)
    requires Legacy in workloads <==> Legacy in s.workloads
    ensures PcInv(s.(workloads := workloads))
  {
  }

  /** A late create-only writer finds the tombstone and changes nothing. */
  lemma LandWorkloadKeepsInv(s: Sys, ww: WorkloadWrite)
    requires Inv(s) && Enabled(s, LandWorkload(ww))
    ensures Inv(Next(s, LandWorkload(ww)))
  {
    WorkloadsKeepCore(s, Next(s, LandWorkload(ww)).workloads);
    WorkloadsKeepPc(s, Next(s, LandWorkload(ww)).workloads);
  }

  lemma DrainKeepsInv(s: Sys, g: Selector)
    requires Inv(s) && Enabled(s, Drain(g))
    ensures Inv(Next(s, Drain(g)))
  {
    WorkloadsKeepCore(s, Next(s, Drain(g)).workloads);
    WorkloadsKeepPc(s, Next(s, Drain(g)).workloads);
  }
}
