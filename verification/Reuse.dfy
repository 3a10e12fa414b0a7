/** What a withdrawn request leaves behind stays as it is: its pods are gone for good, and a rebind of its
    Service that can still land is one that the retry checks allow now. */
module Reuse {
  import opened Types
  import opened Store
  import opened Machine
  import opened Invariant
  import opened Life
  import opened Runs

  ghost predicate WithdrawnDrained(s: Sys) {
    forall r :: Ended(s.db, r, Outcome.Withdrawn) ==> DrainedAt(s, Candidate(r))
  }

  /** Workloads are the legacy one and candidates: an inactive selector never has any. */
  ghost predicate NoInactive(s: Sys) {
    && (forall g :: g in s.workloads ==> !g.Inactive?)
    && (forall ww :: ww in s.wwrites ==> !ww.g.Inactive?)
  }

  ghost predicate SomePrior(s: Sys, r: Req) {
    exists prior :: Reusable(s, r, prior)
  }

  ghost predicate RebindsAllowed(s: Sys) {
    forall w :: w in s.writes && w.Update? && w.change.Rebind? && Hits(s.svc, w.rv) ==> SomePrior(s, w.change.r)
  }

  /** A mark selects its own inactive label, not that of a request. */
  ghost predicate MarksInactive(s: Sys) {
    forall w :: w in s.writes && w.Update? && w.change.Mark? ==>
      w.change.target.sel == Inactive(ByDeletion(w.change.appId))
  }

  ghost predicate ReuseInv(s: Sys) {
    WithdrawnDrained(s) && NoInactive(s) && RebindsAllowed(s) && MarksInactive(s)
  }

  // ---------------------------------------------------------------- workloads

  lemma DrainedStays(s: Sys, a: Action, g: Selector)
    requires Enabled(s, a) && DrainedAt(s, g)
    ensures DrainedAt(Next(s, a), g)
  {
  }

  lemma StepKeepsNoInactive(s: Sys, a: Action)
    requires Enabled(s, a) && NoInactive(s)
    ensures NoInactive(Next(s, a))
  {
  }

  /** A request becomes withdrawn only in the commit that saw its pods gone. */
  lemma WithdrawnSaw(s: Sys, a: Action, r: Req)
    requires PcInv(s) && Enabled(s, a)
    requires Ended(Next(s, a).db, r, Outcome.Withdrawn) && !Ended(s.db, r, Outcome.Withdrawn)
    ensures DrainedAt(s, Candidate(r))
  {
    if !TouchesDb(a) {
      DbUntouched(s, a);
    }
  }

  lemma StepKeepsDrained(s: Sys, a: Action)
    requires PcInv(s) && Enabled(s, a) && WithdrawnDrained(s)
    ensures WithdrawnDrained(Next(s, a))
  {
    forall r | Ended(Next(s, a).db, r, Outcome.Withdrawn) ensures DrainedAt(Next(s, a), Candidate(r)) {
      if !Ended(s.db, r, Outcome.Withdrawn) {
        WithdrawnSaw(s, a, r);
      }
      DrainedStays(s, a, Candidate(r));
    }
  }

  lemma StepKeepsMarksInactive(s: Sys, a: Action)
    requires Enabled(s, a) && MarksInactive(s)
    ensures MarksInactive(Next(s, a))
  {
  }

  // ------------------------------------------------------------------- rebind

  /** The rows that make a withdrawn bootstrap reusable are final. */
  lemma ReusableStays(s: Sys, t: Sys, r: Req, prior: Req)
    requires Reusable(s, r, prior) && t.svc == s.svc && Onward(s.db, t.db) && DrainedAt(t, Candidate(prior))
    requires t.db.row.Some? && t.db.row.value.deleted
    ensures Reusable(t, r, prior)
  {
    assert RequestOnward(s.db.requests[prior], t.db.requests[prior]);
    assert CheckpointOnward(s.db.checkpoints[prior], t.db.checkpoints[prior]);
  }

  lemma PendingInitialHidden(d: AppData, r: Req)
    requires DbInv(d) && Pend(d, r) && d.requests[r].previous.None?
    ensures d.row.Some? && d.row.value.deleted
  {
    assert RequestOK(d, r);
  }

  lemma LandKeepsRebinds(s: Sys, w: Write)
    requires WritesInv(s) && RebindsAllowed(s) && Enabled(s, Land(w))
    ensures RebindsAllowed(Next(s, Land(w)))
  {
    var t := Next(s, Land(w));
    forall x | x in t.writes && x.Update? && x.change.Rebind? && Hits(t.svc, x.rv) ensures SomePrior(t, x.change.r) {
      assert WriteOK(s, x);
      var prior :| Reusable(s, x.change.r, prior);
      assert Reusable(t, x.change.r, prior);
    }
  }

  lemma NewRebind(s: Sys, a: Action, w: Write)
    requires Enabled(s, a) && !a.Land? && w.Update? && w.change.Rebind? && w !in s.writes && w in Next(s, a).writes
    ensures SomePrior(s, w.change.r)
  {
    assert a.PrepareRebind? && Reusable(s, w.change.r, a.prior);
  }

  /** A rebind that could land on the Service stays allowed. */
  lemma PriorStays(s: Sys, a: Action, w: Write)
    requires Enabled(s, a) && !a.Land? && DbInv(s.db) && WritesInv(Next(s, a)) && DbInv(Next(s, a).db)
    requires w.Update? && w.change.Rebind? && SomePrior(s, w.change.r) && w in Next(s, a).writes && Hits(s.svc, w.rv)
    ensures SomePrior(Next(s, a), w.change.r)
  {
    var t := Next(s, a);
    ServiceUntouched(s, a);
    StepOnward(s, a);
    assert WriteOK(t, w);
    PendingInitialHidden(t.db, w.change.r);
    var prior :| Reusable(s, w.change.r, prior);
    DrainedStays(s, a, Candidate(prior));
    ReusableStays(s, t, w.change.r, prior);
  }

  lemma OtherKeepsRebinds(s: Sys, a: Action)
    requires Enabled(s, a) && !a.Land? && DbInv(s.db) && WritesInv(Next(s, a)) && DbInv(Next(s, a).db)
    requires RebindsAllowed(s)
    ensures RebindsAllowed(Next(s, a))
  {
    ServiceUntouched(s, a);
    forall w | w in Next(s, a).writes && w.Update? && w.change.Rebind? && Hits(s.svc, w.rv)
      ensures SomePrior(Next(s, a), w.change.r)
    {
      if w !in s.writes {
        NewRebind(s, a, w);
      }
      PriorStays(s, a, w);
    }
  }

  // --------------------------------------------------------------------- runs

  lemma StepKeepsReuse(s: Sys, a: Action)
    requires Inv(s) && ReuseInv(s) && Enabled(s, a)
    ensures ReuseInv(Next(s, a))
  {
    StepKeepsNoInactive(s, a);
    StepKeepsDrained(s, a);
    StepKeepsMarksInactive(s, a);
    if a.Land? {
      LandKeepsRebinds(s, a.w);
    } else {
      StepKeepsInv(s, a);
      OtherKeepsRebinds(s, a);
    }
  }

  lemma {:induction false} RunKeepsReuse(s: Sys, acts: seq<Action>)
    requires Inv(s) && ReuseInv(s) && ValidRun(s, acts)
    ensures Inv(Exec(s, acts)) && ReuseInv(Exec(s, acts))
    decreases |acts|
  {
    if acts != [] {
      StepKeepsInv(s, acts[0]);
      StepKeepsReuse(s, acts[0]);
      RunKeepsReuse(Next(s, acts[0]), acts[1..]);
    }
  }
}
