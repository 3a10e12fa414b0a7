/** Reclamation that nothing disturbs leaves only the generation that the Service selects. */
module Reclamation {
  import opened Types
  import opened Store
  import opened Machine
  import opened Reach
  import opened Progress

  /** The Service is settled on the applied request `r`, which is the live desired state; nothing is pending. */
  predicate SettledOn(s: Sys, r: Req) {
    && Ended(s.db, r, Applied) && (forall q :: q in s.db.requests ==> s.db.requests[q].state.Done?)
    && s.db.row.Some? && !s.db.row.value.deleted && s.db.row.value.desired == s.db.requests[r].cfg
    && s.svc.Some? && s.svc.value.deleting.None? && s.svc.value.op == ByRequest(r)
    && s.svc.value.target.sel == Candidate(r) && RunningAt(s, Candidate(r))
  }

  /** Every recorded generation but `r` is gone, except those in `todo`. */
  ghost predicate OthersGone(s: Sys, r: Req, todo: set<Req>) {
    forall g :: g in s.db.bindings && g != r && g !in todo ==> DrainedAt(s, Candidate(g))
  }

  /** Only workloads moved; `r` still runs, and what was drained still is. */
  ghost predicate OnlyReclaimed(s: Sys, t: Sys, r: Req) {
    && t == s.(workloads := t.workloads, wwrites := t.wwrites) && RunningAt(t, Candidate(r))
    && forall g :: DrainedAt(s, g) ==> DrainedAt(t, g)
  }

  lemma ReclaimStarts(s: Sys, r: Req) returns (t: Sys)
    requires s.pc == Reclaiming(r) && SettledOn(s, r)
    ensures Reaches(s, t) && t == s.(pc := Reclaim(r, GateOf(s.svc.value)))
  {
    Stay(s);
    Then(s, s, ReclaimStart);
    t := Next(s, ReclaimStart);
  }

  lemma ReclaimsOne(s: Sys, r: Req, g: Req) returns (t: Sys)
    requires s.svc.Some? && s.pc == Reclaim(r, GateOf(s.svc.value)) && g in s.db.bindings && g != r
    requires RunningAt(s, Candidate(r))
    ensures Reaches(s, t) && OnlyReclaimed(s, t, r) && DrainedAt(t, Candidate(g))
  {
    Stay(s);
    Then(s, s, ReclaimRetire(g));
    var s1 := Next(s, ReclaimRetire(g));
    t := RetiredDrains(s1, Candidate(g));
    Onwards(s, s1, t);
  }

  lemma {:induction false} ReclaimsAll(s: Sys, r: Req, todo: set<Req>) returns (t: Sys)
    requires s.svc.Some? && s.pc == Reclaim(r, GateOf(s.svc.value)) && RunningAt(s, Candidate(r))
    requires todo <= s.db.bindings.Keys - {r} && OthersGone(s, r, todo)
    ensures Reaches(s, t) && OnlyReclaimed(s, t, r) && OthersGone(t, r, {})
    decreases todo
  {
    if todo == {} {
      t := s;
      Stay(s);
    } else {
      var g :| g in todo;
      var u := ReclaimsOne(s, r, g);
      t := ReclaimsAll(u, r, todo - {g});
      Onwards(s, u, t);
    }
  }

  lemma ReclaimsLegacy(s: Sys, r: Req) returns (t: Sys)
    requires s.svc.Some? && s.pc == Reclaim(r, GateOf(s.svc.value)) && RunningAt(s, Candidate(r))
    requires s.svc.value.deleting.None? && s.svc.value.target.sel == Candidate(r)
    ensures Reaches(s, t) && OnlyReclaimed(s, t, r) && LegacyGone(t)
  {
    Stay(s);
    if Legacy in s.workloads {
      Then(s, s, ReclaimLegacy);
      var s1 := Next(s, ReclaimLegacy);
      t := RetiredDrains(s1, Legacy);
      Onwards(s, s1, t);
    } else {
      t := s;
    }
  }

  /** Everything but the selected generation is tombstoned and drained; Service and rows stay as they are. */
  lemma ReclamationCompletes(s: Sys, r: Req) returns (t: Sys)
    requires s.pc == Reclaiming(r) && SettledOn(s, r)
    ensures Reaches(s, t) && t.svc == s.svc && t.db == s.db && RunningAt(t, Candidate(r))
    ensures (forall g :: g in t.db.bindings && g != r ==> DrainedAt(t, Candidate(g))) && LegacyGone(t)
  {
    var s1 := ReclaimStarts(s, r);
    var s2 := ReclaimsAll(s1, r, s.db.bindings.Keys - {r});
    Onwards(s, s1, s2);
    t := ReclaimsLegacy(s2, r);
    Onwards(s, s2, t);
  }

  /** A deploy that was applied undisturbed is settled, so reclamation follows it. */
  lemma CompletedIsSettled(s: Sys, u: Sys, t: Sys, appId: nat, depId: nat)
    requires Completed(s, u, t, appId, depId) && u.svc.Some? && u.svc.value.deleting.None?
    ensures t.pc == Reclaiming(s.pc.r) && SettledOn(t, s.pc.r)
  {
    assert !Busy(s.db);
    forall q | q in t.db.requests ensures t.db.requests[q].state.Done? {
      if q != s.pc.r {
        assert !Pend(s.db, q);
      }
    }
  }
}
