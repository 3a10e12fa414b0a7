/** What a request falls back to. An initial candidate, one without predecessor, falls back to the inactive
    target of its own request; every other one to a target that serves. That holds on every run
    that keeps the deletion barrier. */
module Initial {
  import opened Types
  import opened Store
  import opened Machine
  import opened Invariant
  import opened Life
  import opened Runs
  import opened Barrier

  /** The check that recovery makes on the saved target of an initial candidate. */
  predicate FallsBack(d: AppData, r: Req, target: Target) {
    r in d.requests && (d.requests[r].previous.None? ==> target == InactiveTarget(r, d.requests[r].cfg))
  }

  predicate Restores(d: AppData, r: Req, target: Target) {
    FallsBack(d, r, target) && (d.requests[r].previous.Some? ==> !target.sel.Inactive?)
  }

  ghost predicate SavedInv(s: Sys) {
    forall r :: r in s.db.checkpoints ==> Restores(s.db, r, s.db.checkpoints[r].intent.pred)
  }

  /** What the lock holder is about to save. */
  predicate StartPc(s: Sys) {
    match s.pc
    case Advancing(r) => r !in s.db.checkpoints ==> s.svc.Some? && Restores(s.db, r, s.svc.value.target)
    case Captured(r, snap, _) => Restores(s.db, r, snap.target)
    case Await(k, w) => k.KRebind? ==> w.Update? && w.change.Rebind? && Restores(s.db, k.r, w.change.target)
    case _ => true
  }

  /** The Service of a live application serves, unless the application is being deleted. */
  ghost predicate LiveInv(s: Sys) {
    Live(s.db.row) ==>
      if s.svc.Some? then Marked(s) || !s.svc.value.target.sel.Inactive?
      else forall w :: w in s.writes ==> !w.Bootstrap? && !w.Tombstone?
  }

  ghost predicate StartInv(s: Sys) {
    Sealed(s) && SavedInv(s) && StartPc(s) && LiveInv(s)
  }

  // ----------------------------------------------------------------- landing

  /** While a request without checkpoint advances, nothing moves the target. */
  lemma TargetStays(s: Sys, w: Write, r: Req)
    requires DbInv(s.db) && SvcInv(s) && WritesInv(s) && s.svc.Some? && Pend(s.db, r) && r !in s.db.checkpoints
    requires NoRebindAhead(s) && Enabled(s, Land(w)) && Careful(s, Land(w))
    ensures w.Update? && Changed(s.svc.value, w.change).target == s.svc.value.target
  {
    assert WriteOK(s, w);
    if w.Update? && w.change.Retarget? {
      RestoreStays(s, s.svc.value, w.change.target, r);
    }
  }

  lemma RestoreStays(s: Sys, v: Service, target: Target, r: Req)
    requires DbInv(s.db) && SvcInv(s) && s.svc == Some(v) && Pend(s.db, r) && r !in s.db.checkpoints
    requires ChangeOK(s, v, Retarget(target))
    ensures target == v.target
  {
    var q := v.op.r;
    assert q in s.db.checkpoints && RequestOK(s.db, q);
    assert !Pend(s.db, q);
  }

  lemma LandedTarget(s: Sys, w: Write)
    requires Enabled(s, Land(w)) && w.Update?
    ensures var t := Next(s, Land(w));
            && t.db == s.db && t.writes == s.writes && t.svc.Some?
            && t.svc.value.target == Changed(s.svc.value, w.change).target
            && t.svc.value.deleting == Changed(s.svc.value, w.change).deleting
  {
  }

  lemma AdvancingLands(s: Sys, w: Write)
    requires DbInv(s.db) && SvcInv(s) && WritesInv(s) && PcInv(s) && StartPc(s)
    requires s.pc.Advancing? && s.pc.r !in s.db.checkpoints && Enabled(s, Land(w)) && Careful(s, Land(w))
    ensures StartPc(Next(s, Land(w)))
  {
    TargetStays(s, w, s.pc.r);
    LandedTarget(s, w);
  }

  lemma RebindLands(s: Sys, w: Write)
    requires StartPc(s) && s.pc.Await? && s.pc.w == w && s.pc.k.KRebind? && Enabled(s, Land(w))
    ensures StartPc(Next(s, Land(w)))
  {
    LandedTarget(s, w);
  }

  lemma OtherLands(s: Sys, w: Write)
    requires StartPc(s) && Enabled(s, Land(w)) && !(s.pc.Await? && s.pc.w == w && s.pc.k.KRebind?)
    requires s.pc.Advancing? ==> s.pc.r in s.db.checkpoints
    ensures StartPc(Next(s, Land(w)))
  {
  }

  lemma LandKeepsStart(s: Sys, w: Write)
    requires Inv(s) && StartPc(s) && Enabled(s, Land(w)) && Careful(s, Land(w))
    ensures StartPc(Next(s, Land(w)))
  {
    if s.pc.Advancing? && s.pc.r !in s.db.checkpoints {
      AdvancingLands(s, w);
    } else if s.pc.Await? && s.pc.w == w && s.pc.k.KRebind? {
      RebindLands(s, w);
    } else {
      OtherLands(s, w);
    }
  }

  /** The only update that could take a live application off a serving target is a restore, and the saved
      predecessor of a live application serves. */
  lemma RetargetServes(s: Sys, v: Service, target: Target)
    requires DbInv(s.db) && SvcInv(s) && SavedInv(s) && s.svc == Some(v) && ChangeOK(s, v, Retarget(target))
    requires Live(s.db.row) && !v.target.sel.Inactive?
    ensures !target.sel.Inactive?
  {
    var r := v.op.r;
    assert r in s.db.checkpoints && RequestOK(s.db, r);
  }

  lemma UpdateKeepsLive(s: Sys, w: Write)
    requires DbInv(s.db) && SvcInv(s) && WritesInv(s) && SavedInv(s) && LiveInv(s) && Enabled(s, Land(w)) && w.Update?
    ensures LiveInv(Next(s, Land(w)))
  {
    assert WriteOK(s, w);
    LandedTarget(s, w);
    if w.change.Rebind? {
      assert RequestOK(s.db, w.change.r);
    } else if w.change.Retarget? && Live(s.db.row) && !Marked(s) {
      RetargetServes(s, s.svc.value, w.change.target);
    }
  }

  lemma LandKeepsLive(s: Sys, w: Write)
    requires DbInv(s.db) && SvcInv(s) && WritesInv(s) && SavedInv(s) && LiveInv(s) && Enabled(s, Land(w))
    ensures LiveInv(Next(s, Land(w)))
  {
    if w.Update? {
      UpdateKeepsLive(s, w);
    } else {
      assert WriteOK(s, w);
    }
  }

  // ------------------------------------------------------------ transactions

  lemma SaveKeepsSaved(s: Sys)
    requires SavedInv(s) && StartPc(s) && Enabled(s, SaveIntent)
    ensures SavedInv(Next(s, SaveIntent))
  {
  }

  /** Every other transaction keeps requests and intents, so it keeps what was saved. */
  lemma OnwardKeepsSaved(s: Sys, a: Action)
    requires KeysOK(s.db) && SavedInv(s) && Enabled(s, a) && a != SaveIntent
    ensures SavedInv(Next(s, a))
  {
    StepOnward(s, a);
    NoNewCheckpoint(s, a);
    forall r | r in Next(s, a).db.checkpoints
      ensures Restores(Next(s, a).db, r, Next(s, a).db.checkpoints[r].intent.pred)
    {
      assert CheckpointOnward(s.db.checkpoints[r], Next(s, a).db.checkpoints[r]);
      assert RequestOnward(s.db.requests[r], Next(s, a).db.requests[r]);
    }
  }

  lemma NoNewCheckpoint(s: Sys, a: Action)
    requires Enabled(s, a) && a != SaveIntent
    ensures Next(s, a).db.checkpoints.Keys == s.db.checkpoints.Keys
  {
    if !TouchesDb(a) {
      DbUntouched(s, a);
    }
  }

  lemma TransactKeepsStartPc(s: Sys, a: Action)
    requires Enabled(s, a) && TouchesDb(a)
    ensures StartPc(Next(s, a))
  {
    TransactionPc(s, a);
  }

  /** An application becomes live only in the commit of an applied request. */
  lemma TurnsLive(s: Sys, a: Action)
    requires PcInv(s) && Enabled(s, a) && Live(Next(s, a).db.row) && !Live(s.db.row)
    ensures a == Commit && s.pc.o.Applied? && Going(s.db, s.pc.r, Activated)
  {
    if !TouchesDb(a) {
      DbUntouched(s, a);
    }
  }

  lemma TransactKeepsLive(s: Sys, a: Action)
    requires PcInv(s) && PendInv(s) && LiveInv(s) && Enabled(s, a) && TouchesDb(a)
    ensures LiveInv(Next(s, a))
  {
    ServiceUntouched(s, a);
    if Live(Next(s, a).db.row) && !Live(s.db.row) {
      TurnsLive(s, a);
      assert Tracks(s.env, s.pc.r, s.db.checkpoints[s.pc.r], s.svc.value);
    }
  }

  // ------------------------------------------------------------- other steps

  lemma SendKeepsLive(s: Sys, a: Action)
    requires DbInv(s.db) && PcInv(s) && LiveInv(s) && Enabled(s, a) && !a.Land? && !TouchesDb(a)
    ensures LiveInv(Next(s, a))
  {
    DbUntouched(s, a);
    ServiceUntouched(s, a);
    if a.PrepareCreate? {
      assert RequestOK(s.db, s.pc.r);
    }
  }

  /** A request over a live application captures a Service that serves. */
  lemma ReadyRestores(s: Sys)
    requires DbInv(s.db) && Sealed(s) && LiveInv(s) && Enabled(s, PrepareReady)
    ensures Restores(s.db, s.pc.r, s.svc.value.target)
  {
    assert RequestOK(s.db, s.pc.r);
  }

  lemma ReadKeepsStartPc(s: Sys, a: Action)
    requires DbInv(s.db) && Sealed(s) && LiveInv(s) && StartPc(s) && Enabled(s, a) && OnlyReads(a)
    ensures StartPc(Next(s, a))
  {
    match a
    case PrepareReady => ReadyRestores(s);
    case AdvanceCapture =>
    case StartAdvance(_) =>
    case _ =>
  }

  lemma SendKeepsStartPc(s: Sys, a: Action)
    requires StartPc(s) && Enabled(s, a) && !a.Land? && !TouchesDb(a) && !OnlyReads(a)
    ensures StartPc(Next(s, a))
  {
    if SendsWrite(a) {
      WriteKeepsStartPc(s, a);
    }
  }

  lemma WriteKeepsStartPc(s: Sys, a: Action)
    requires Enabled(s, a) && SendsWrite(a)
    ensures StartPc(Next(s, a))
  {
    match a
    case PrepareRebind(_) =>
    case _ =>
  }

  // -------------------------------------------------------------------- runs

  lemma StepKeepsStartPc(s: Sys, a: Action)
    requires Inv(s) && StartInv(s) && Enabled(s, a) && Careful(s, a)
    ensures StartPc(Next(s, a))
  {
    if a.Land? {
      LandKeepsStart(s, a.w);
    } else if TouchesDb(a) {
      TransactKeepsStartPc(s, a);
    } else if OnlyReads(a) {
      ReadKeepsStartPc(s, a);
    } else {
      SendKeepsStartPc(s, a);
    }
  }

  lemma StepKeepsLive(s: Sys, a: Action)
    requires Inv(s) && SavedInv(s) && LiveInv(s) && Enabled(s, a)
    ensures LiveInv(Next(s, a))
  {
    if a.Land? {
      LandKeepsLive(s, a.w);
    } else if TouchesDb(a) {
      TransactKeepsLive(s, a);
    } else {
      SendKeepsLive(s, a);
    }
  }

  lemma StepKeepsStart(s: Sys, a: Action)
    requires Inv(s) && StartInv(s) && Enabled(s, a) && Careful(s, a)
    ensures StartInv(Next(s, a))
  {
    StepKeepsSealed(s, a);
    StepKeepsStartPc(s, a);
    StepKeepsLive(s, a);
    if a == SaveIntent {
      SaveKeepsSaved(s);
    } else {
      OnwardKeepsSaved(s, a);
    }
  }

  lemma InitStart(s: Sys)
    requires Init(s)
    ensures StartInv(s)
  {
  }

  lemma {:induction false} RunKeepsStart(s: Sys, acts: seq<Action>)
    requires Inv(s) && StartInv(s) && ValidRun(s, acts) && CarefulRun(s, acts)
    ensures Inv(Exec(s, acts)) && StartInv(Exec(s, acts))
    decreases |acts|
  {
    if acts != [] {
      StepKeepsInv(s, acts[0]);
      StepKeepsStart(s, acts[0]);
      RunKeepsStart(Next(s, acts[0]), acts[1..]);
    }
  }
}
