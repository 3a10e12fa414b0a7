/** Steps that only read, and steps that dispatch a Service write, keep the invariant. */
module Reads {
  import opened Types
  import opened Store
  import opened Machine
  import opened Invariant

  lemma NotBusy(d: AppData)
    requires KeysOK(d) && !Busy(d)
    ensures NoPending(d)
  {
  }

  /** A Service without deletion mark cannot be the one a dispatched removal is aimed at. */
  lemma CheckedPc(s: Sys)
    requires Core(s) && NotDeleting(s.svc)
    ensures NoRemovalAhead(s)
  {
    forall w | w in s.writes && w.Remove? ensures !Hits(s.svc, w.rv) {
      assert WriteOK(s, w);
    }
  }

  lemma PreparedPc(s: Sys)
    requires Inv(s) && Enabled(s, PrepareReady)
    ensures NoRebindAhead(s)
  {
    forall w | w in s.writes && w.Update? && w.change.Rebind? ensures !Hits(s.svc, w.rv) {
      assert WriteOK(s, w);
    }
  }

  lemma SnapPc(s: Sys, r: Req)
    requires Core(s) && s.svc.Some? && Pend(s.db, r) && r !in s.db.checkpoints
    ensures SnapOK(s, r, s.svc.value)
  {
  }

  lemma StartKeepsPc(s: Sys, a: Action)
    requires Inv(s) && Enabled(s, a)
    requires a.StartDeploy? || a.StartWithdraw? || a.StartAdvance? || a.StartDelete? || a.ReclaimStart?
    ensures PcInv(Next(s, a))
  {
    match a
    case StartDeploy(_, _, _) => CheckedPc(s);
    case StartWithdraw(_, _) => CheckedPc(s);
    case StartAdvance(r) => AdvancePc(s, r);
    case ReclaimStart => NotBusy(s.db);
    case StartDelete => NotBusy(s.db);
  }

  lemma AdvancePc(s: Sys, r: Req)
    requires Enabled(s, StartAdvance(r))
    ensures PcInv(Next(s, StartAdvance(r)))
  {
  }

  lemma CaptureKeepsPc(s: Sys, a: Action)
    requires Inv(s) && Enabled(s, a)
    requires a.PrepareReady? || a.AdvanceCapture? || a.AdvanceResume? || a.SkipRestore?
    ensures PcInv(Next(s, a))
  {
    match a
    case PrepareReady => PreparedPc(s); SnapPc(s, s.pc.r);
    case AdvanceCapture => SnapPc(s, s.pc.r);
    case AdvanceResume =>
    case SkipRestore =>
  }

  lemma ObserveKeepsPc(s: Sys, a: Action)
    requires PcInv(s) && Enabled(s, a) && (a.ObserveApplied? || a.ObserveWithdrawn? || a.Recheck?)
    ensures PcInv(Next(s, a))
  {
  }

  lemma DeleteReadKeepsPc(s: Sys, a: Action)
    requires PcInv(s) && Enabled(s, a) && (a.DeleteResume? || a.DeleteDrain? || a.DeleteClean? || a.Abort?)
    ensures PcInv(Next(s, a))
  {
    match a
    case DeleteResume => DeleteResumeKeepsPc(s);
    case DeleteDrain => DeleteDrainKeepsPc(s);
    case DeleteClean => DeleteCleanKeepsPc(s);
    case Abort => AbortKeepsPc(s);
  }

  lemma AbortKeepsPc(s: Sys)
    ensures PcInv(Next(s, Abort))
  {
  }

  lemma DeleteDrainKeepsPc(s: Sys)
    requires PcInv(s) && Enabled(s, DeleteDrain)
    ensures PcInv(Next(s, DeleteDrain))
  {
  }

  lemma DeleteCleanKeepsPc(s: Sys)
    requires PcInv(s) && Enabled(s, DeleteClean)
    ensures PcInv(Next(s, DeleteClean))
  {
  }

  lemma DeleteResumeKeepsPc(s: Sys)
    requires PcInv(s) && Enabled(s, DeleteResume)
    ensures PcInv(Next(s, DeleteResume))
  {
  }

  lemma ReadKeepsInv(s: Sys, a: Action)
    requires Inv(s) && OnlyReads(a) && Enabled(s, a)
    ensures Inv(Next(s, a))
  {
    CorePc(s, Next(s, a).pc);
    if a.StartDeploy? || a.StartWithdraw? || a.StartAdvance? || a.StartDelete? || a.ReclaimStart? {
      StartKeepsPc(s, a);
    } else if a.PrepareReady? || a.AdvanceCapture? || a.AdvanceResume? || a.SkipRestore? {
      CaptureKeepsPc(s, a);
    } else if a.ObserveApplied? || a.ObserveWithdrawn? || a.Recheck? {
      ObserveKeepsPc(s, a);
    } else {
      DeleteReadKeepsPc(s, a);
    }
  }

  // --------------------------------------------------------------- dispatch

  /** A correct write may be dispatched: it joins the writes that can land at any time. */
  lemma DispatchKeepsInv(s: Sys, k: Continuation, w: Write)
    requires Core(s) && WriteOK(s, w) && AwaitOK(s.(writes := s.writes + {w}), k, w)
    ensures Inv(DispatchWrite(s, k, w))
  {
    var t := DispatchWrite(s, k, w);
    forall x | x in t.writes ensures WriteOK(t, x) {
      assert x == w || WriteOK(s, x);
    }
    forall r | r in t.db.checkpoints ensures IntentOK(t, r) {
      assert IntentOK(s, r);
    }
  }

  lemma PrepareCreateKeepsInv(s: Sys)
    requires Inv(s) && Enabled(s, PrepareCreate)
    ensures Inv(Next(s, PrepareCreate))
  {
    DispatchKeepsInv(s, KCreate(s.pc.r, s.pc.rec), Next(s, PrepareCreate).pc.w);
  }

  lemma PrepareRebindKeepsInv(s: Sys, prior: Req)
    requires Inv(s) && Enabled(s, PrepareRebind(prior))
    ensures Inv(Next(s, PrepareRebind(prior)))
  {
    DispatchKeepsInv(s, KRebind(s.pc.r, s.pc.rec), Next(s, PrepareRebind(prior)).pc.w);
  }

  lemma DispatchFenceKeepsInv(s: Sys)
    requires Inv(s) && Enabled(s, DispatchFence)
    ensures Inv(Next(s, DispatchFence))
  {
    DispatchKeepsInv(s, KFence(s.pc.r), Next(s, DispatchFence).pc.w);
  }

  lemma DispatchActivateKeepsInv(s: Sys)
    requires Inv(s) && Enabled(s, DispatchActivate)
    ensures Inv(Next(s, DispatchActivate))
  {
    assert Tracks(s.env, s.pc.r, s.db.checkpoints[s.pc.r], s.svc.value);
    assert RequestOK(s.db, s.pc.r);
    DispatchKeepsInv(s, KActivate(s.pc.r), Next(s, DispatchActivate).pc.w);
  }

  lemma DispatchRecoveryFenceKeepsInv(s: Sys)
    requires Inv(s) && Enabled(s, DispatchRecoveryFence)
    ensures Inv(Next(s, DispatchRecoveryFence))
  {
    assert Tracks(s.env, s.pc.r, s.db.checkpoints[s.pc.r], s.svc.value);
    DispatchKeepsInv(s, KRecoveryFence(s.pc.r), Next(s, DispatchRecoveryFence).pc.w);
  }

  lemma DispatchRestoreKeepsInv(s: Sys)
    requires Inv(s) && Enabled(s, DispatchRestore)
    ensures Inv(Next(s, DispatchRestore))
  {
    var r := if s.pc.RestoreCapture? then s.pc.r else s.pc.k.r;
    var w := Update(s.svc.value.rv, Retarget(s.db.checkpoints[r].intent.pred));
    RestoreIs(s, r, w);
    RestoreOK(s, r, w);
    DispatchKeepsInv(s, KRestore(r), w);
  }

  lemma RestoreIs(s: Sys, r: Req, w: Write)
    requires PcInv(s) && Enabled(s, DispatchRestore) && r == (if s.pc.RestoreCapture? then s.pc.r else s.pc.k.r)
    requires w == Update(s.svc.value.rv, Retarget(s.db.checkpoints[r].intent.pred))
    ensures Leaving(s.db, r, Recovering) && s.svc.Some? && s.svc.value.op == ByRecovery(r)
    ensures Next(s, DispatchRestore) == DispatchWrite(s, KRestore(r), w)
  {
  }

  lemma RestoreOK(s: Sys, r: Req, w: Write)
    requires SvcInv(s) && Leaving(s.db, r, Recovering) && s.svc.Some? && s.svc.value.op == ByRecovery(r)
    requires w == Update(s.svc.value.rv, Retarget(s.db.checkpoints[r].intent.pred))
    ensures WriteOK(s, w) && AwaitOK(s.(writes := s.writes + {w}), KRestore(r), w)
  {
  }

  lemma MarkOK(s: Sys, w: Write)
    requires SvcInv(s) && PcInv(s) && Enabled(s, DeleteMark) && w == Next(s, DeleteMark).pc.w
    ensures WriteOK(s, w) && AwaitOK(s.(writes := s.writes + {w}), KMark, w)
    ensures Next(s, DeleteMark) == DispatchWrite(s, KMark, w)
  {
  }

  lemma DeleteMarkKeepsInv(s: Sys)
    requires Inv(s) && Enabled(s, DeleteMark)
    ensures Inv(Next(s, DeleteMark))
  {
    var w := Next(s, DeleteMark).pc.w;
    MarkOK(s, w);
    DispatchKeepsInv(s, KMark, w);
  }

  lemma DeleteCreateKeepsInv(s: Sys)
    requires Inv(s) && Enabled(s, DeleteCreate)
    ensures Inv(Next(s, DeleteCreate))
  {
    var w := Next(s, DeleteCreate).pc.w;
    CreateOK(s, w);
    DispatchKeepsInv(s, KMark, w);
  }

  lemma CreateOK(s: Sys, w: Write)
    requires PcInv(s) && Enabled(s, DeleteCreate) && w == Next(s, DeleteCreate).pc.w
    ensures WriteOK(s, w) && AwaitOK(s.(writes := s.writes + {w}), KMark, w)
    ensures Next(s, DeleteCreate) == DispatchWrite(s, KMark, w)
  {
  }

  lemma DeleteFinishKeepsInv(s: Sys)
    requires Inv(s) && Enabled(s, DeleteFinish)
    ensures Inv(Next(s, DeleteFinish))
  {
    DispatchKeepsInv(s, KRemove, Next(s, DeleteFinish).pc.w);
  }
}
