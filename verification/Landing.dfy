/** Landing a dispatched Service write, at any moment and for any lock holder, keeps the invariant. */
module Landing {
  import opened Types
  import opened Store
  import opened Machine
  import opened Invariant

  /** The state after the Service became `svc`; the program counter is treated separately. */
  function Moved(s: Sys, svc: Option<Service>): Sys {
    s.(svc := svc, nextRv := s.nextRv + 1, nextUid := s.nextUid + 1)
  }

  /** The Service after change `c`, at a resourceVersion nobody has seen. */
  function Touched(s: Sys, v: Service, c: Change): Sys {
    Moved(s, Some(Changed(v, c).(rv := s.nextRv)))
  }

  ghost predicate Unseen(s: Sys, svc: Option<Service>) {
    svc.Some? ==> svc.value.rv == s.nextRv && svc.value.uid <= s.nextUid
  }

  lemma MovedWrites(s: Sys, svc: Option<Service>)
    requires WritesInv(s) && IntentInv(s) && Unseen(s, svc)
    ensures WritesInv(Moved(s, svc)) && IntentInv(Moved(s, svc))
    ensures NoRemovalAhead(Moved(s, svc)) && NoRebindAhead(Moved(s, svc))
  {
    var t := Moved(s, svc);
    forall w | w in t.writes ensures WriteOK(t, w) && (w.Remove? || w.Update? ==> !Hits(t.svc, w.rv)) {
      assert WriteOK(s, w);
    }
    forall r | r in t.db.checkpoints ensures IntentOK(t, r) {
      assert IntentOK(s, r);
    }
  }

  lemma FenceService(s: Sys, v: Service, op: Op)
    requires DbInv(s.db) && SvcInv(s) && PendInv(s) && IntentInv(s)
    requires s.svc == Some(v) && ChangeOK(s, v, Fence(op))
    ensures SvcInv(Touched(s, v, Fence(op))) && PendInv(Touched(s, v, Fence(op)))
  {
    var t := Touched(s, v, Fence(op));
    var r := op.r;
    assert Pend(s.db, r) && r in s.db.checkpoints;
    assert IntentOK(s, r);
    assert RequestOK(s.db, r);
    forall q | Pend(t.db, q) && q in t.db.checkpoints
      ensures Tracks(t.env, q, t.db.checkpoints[q], t.svc.value)
    {
      assert q == r;
      assert Tracks(s.env, r, s.db.checkpoints[r], v);
    }
  }

  lemma RetargetService(s: Sys, v: Service, target: Target)
    requires DbInv(s.db) && SvcInv(s) && PendInv(s) && IntentInv(s)
    requires s.svc == Some(v) && ChangeOK(s, v, Retarget(target))
    requires s.env.bumps || Changed(v, Retarget(target)) != v
    ensures SvcInv(Touched(s, v, Retarget(target))) && PendInv(Touched(s, v, Retarget(target)))
  {
    var t := Touched(s, v, Retarget(target));
    var r := v.op.r;
    assert r in s.db.checkpoints;
    assert IntentOK(s, r);
    assert RequestOK(s.db, r);
    assert SvcInv(t) by {
      if v.op == ByRecovery(r) && At(s.db, r, Recovering) {
        assert Pend(s.db, r);
      }
    }
    forall q | Pend(t.db, q) && q in t.db.checkpoints
      ensures Tracks(t.env, q, t.db.checkpoints[q], t.svc.value)
    {
      assert Tracks(s.env, q, s.db.checkpoints[q], v);
      assert IntentOK(s, q);
      if q != r {
        assert !Pend(s.db, r) && At(s.db, r, Stage.Withdrawn) && v.target == target;
      } else if At(s.db, r, Stage.Withdrawn) {
        assert Changed(v, Retarget(target)) == v;
      }
    }
  }

  lemma RebindService(s: Sys, v: Service, r: Req, target: Target)
    requires DbInv(s.db) && SvcInv(s)
    requires s.svc == Some(v) && ChangeOK(s, v, Rebind(r, target))
    ensures SvcInv(Touched(s, v, Rebind(r, target))) && PendInv(Touched(s, v, Rebind(r, target)))
  {
  }

  lemma MarkService(s: Sys, v: Service, id: nat, target: Target)
    requires DbInv(s.db) && SvcInv(s) && PendInv(s) && IntentInv(s)
    requires s.svc == Some(v) && ChangeOK(s, v, Mark(id, target))
    ensures SvcInv(Touched(s, v, Mark(id, target))) && PendInv(Touched(s, v, Mark(id, target)))
  {
    var t := Touched(s, v, Mark(id, target));
    forall r | Pend(t.db, r) && r in t.db.checkpoints
      ensures Tracks(t.env, r, t.db.checkpoints[r], t.svc.value)
    {
      assert Tracks(s.env, r, s.db.checkpoints[r], v);
      assert IntentOK(s, r) && AtStart(s.db.checkpoints[r].intent, v);
    }
  }

  lemma ChangeService(s: Sys, v: Service, c: Change)
    requires DbInv(s.db) && SvcInv(s) && PendInv(s) && IntentInv(s)
    requires s.svc == Some(v) && ChangeOK(s, v, c)
    requires s.env.bumps || Changed(v, c) != v
    ensures SvcInv(Touched(s, v, c)) && PendInv(Touched(s, v, c))
  {
    match c
    case Fence(op) => FenceService(s, v, op);
    case Retarget(t) => RetargetService(s, v, t);
    case Rebind(r, t) => RebindService(s, v, r, t);
    case Mark(id, t) => MarkService(s, v, id, t);
  }

  // ------------------------------------------------------------ lock holder

  lemma CapturedUpdate(s: Sys, v: Service, c: Change, r: Req, snap: Service, rec: bool)
    requires DbInv(s.db) && SvcInv(s) && s.svc == Some(v) && ChangeOK(s, v, c)
    requires Unstarted(s.db, r, rec) && SnapOK(s, r, snap)
    requires !c.Rebind?
    ensures SnapOK(Touched(s, v, c), r, snap)
  {
    match c
    case Fence(_) =>
    case Retarget(t) =>
      var q := v.op.r;
      assert q in s.db.checkpoints && RequestOK(s.db, q);
      assert !Pend(s.db, q);
    case Mark(_, _) =>
  }

  lemma QuietUpdate(s: Sys, v: Service, c: Change)
    requires DbInv(s.db) && SvcInv(s) && s.svc == Some(v) && ChangeOK(s, v, c)
    requires Quiet(s)
    ensures Quiet(Touched(s, v, c))
  {
    if c.Retarget? {
      var q := v.op.r;
      assert q in s.db.checkpoints && RequestOK(s.db, q);
      assert !Pend(s.db, q);
    }
  }

  /** While its write is awaited, or its reply just came, an operation owns the annotation. */
  lemma OwnedUpdate(s: Sys, v: Service, c: Change, r: Req)
    requires DbInv(s.db) && PendInv(s) && IntentInv(s) && s.svc == Some(v) && ChangeOK(s, v, c)
    requires Pend(s.db, r) && r in s.db.checkpoints && (v.op == ByRequest(r) || v.op == ByRecovery(r))
    ensures c.Retarget? || (c == Fence(ByRecovery(r)) && At(s.db, r, Recovering))
    ensures c.Retarget? && v.op == ByRecovery(r) ==> c.target == s.db.checkpoints[r].intent.pred
    ensures c.Retarget? && v.op == ByRequest(r) ==>
              v.target == s.db.checkpoints[r].intent.pred && (At(s.db, r, Fenced) || At(s.db, r, Recovering))
  {
    assert IntentOK(s, r);
    match c
    case Fence(op) =>
      assert Pend(s.db, op.r);
    case Retarget(_) =>
    case Rebind(_, _) =>
    case Mark(_, _) =>
  }

  lemma GotUpdate(s: Sys, v: Service, c: Change, k: Continuation, gate: Gate)
    requires DbInv(s.db) && PendInv(s) && IntentInv(s) && s.svc == Some(v) && ChangeOK(s, v, c)
    requires s.env.bumps || Changed(v, c) != v
    requires GotOK(s, k, gate)
    ensures GotOK(Touched(s, v, c), k, gate)
  {
    assert IntentOK(s, k.r);
    assert Tracks(s.env, k.r, s.db.checkpoints[k.r], v);
    OwnedUpdate(s, v, c, k.r);
    assert RequestOK(s.db, k.r);
  }

  lemma AwaitUpdate(s: Sys, v: Service, c: Change, k: Continuation, w: Write)
    requires DbInv(s.db) && SvcInv(s) && PendInv(s) && IntentInv(s) && s.svc == Some(v) && ChangeOK(s, v, c)
    requires AwaitOK(s, k, w)
    ensures AwaitOK(Touched(s, v, c), k, w)
  {
    match k
    case KRestore(r) => OwnedUpdate(s, v, c, r);
    case KRemove => QuietUpdate(s, v, c);
    case _ =>
  }

  /** The lock holder waits for something else, or for nothing: what it knows stays true. */
  lemma BystanderUpdate(s: Sys, v: Service, c: Change)
    requires Inv(s) && s.svc == Some(v) && ChangeOK(s, v, c)
    requires s.env.bumps || Changed(v, c) != v
    requires s.pc.Captured? ==> !c.Rebind?
    ensures PcInv(Touched(s, v, c))
  {
    MovedWrites(s, Touched(s, v, c).svc);
    if Quiet(s) {
      QuietUpdate(s, v, c);
    }
    if s.pc.Captured? {
      CapturedUpdate(s, v, c, s.pc.r, s.pc.snap, s.pc.rec);
    } else if s.pc.Got? {
      GotUpdate(s, v, c, s.pc.k, s.pc.gate);
    } else if s.pc.Await? {
      AwaitUpdate(s, v, c, s.pc.k, s.pc.w);
    } else {
      OtherUpdate(s, Touched(s, v, c));
    }
  }

  /** What the other program counters know does not mention the Service, except through `Quiet`. */
  lemma OtherUpdate(s: Sys, t: Sys)
    requires PcInv(s) && t == s.(svc := t.svc, nextRv := t.nextRv, nextUid := t.nextUid)
    requires !s.pc.Captured? && !s.pc.Got? && !s.pc.Await?
    requires NoRemovalAhead(t) && NoRebindAhead(t) && (Quiet(s) ==> Quiet(t))
    ensures PcInv(t)
  {
  }

  lemma BystanderCreate(s: Sys, v: Service)
    requires Inv(s) && s.svc.None? && Unseen(s, Some(v)) && v.target.sel.Inactive?
    requires v.op.Unset? || v.op.ByDeletion?
    ensures PcInv(Moved(s, Some(v)))
  {
    MovedWrites(s, Some(v));
  }

  lemma BystanderRemove(s: Sys, v: Service)
    requires Inv(s) && s.svc == Some(v) && RemovalOK(s, v)
    ensures PcInv(Moved(s, None))
  {
    MovedWrites(s, None);
  }

  // ------------------------------------------------------------------ reply

  lemma ReplyRebind(s: Sys, v: Service, r: Req, rec: bool, w: Write)
    requires WritesInv(s) && IntentInv(s) && DbInv(s.db) && SvcInv(s) && s.svc == Some(v)
    requires w.Update? && w.change.Rebind? && w.change.r == r && Unstarted(s.db, r, rec) && ChangeOK(s, v, w.change)
    ensures PcInv(Touched(s, v, w.change).(pc := Received(Await(KRebind(r, rec), w), w, Touched(s, v, w.change).svc)))
  {
    MovedWrites(s, Touched(s, v, w.change).svc);
  }

  lemma ReplyFence(s: Sys, v: Service, k: Continuation, w: Write)
    requires IntentInv(s) && s.svc == Some(v) && (k.KFence? || k.KRecoveryFence?) && AwaitOK(s, k, w)
    requires w.Update? && Hits(s.svc, w.rv)
    ensures PcInv(Touched(s, v, w.change).(pc := Received(Await(k, w), w, Touched(s, v, w.change).svc)))
  {
  }

  lemma ReplyRetarget(s: Sys, v: Service, k: Continuation, w: Write)
    requires PendInv(s) && s.svc == Some(v) && (k.KActivate? || k.KRestore?) && AwaitOK(s, k, w)
    requires w.Update? && Hits(s.svc, w.rv)
    ensures PcInv(Touched(s, v, w.change).(pc := Received(Await(k, w), w, Touched(s, v, w.change).svc)))
  {
    assert Tracks(s.env, k.r, s.db.checkpoints[k.r], v);
  }

  lemma ReplyMark(s: Sys, v: Service, w: Write)
    requires s.svc == Some(v) && AwaitOK(s, KMark, w) && w.Update? && ChangeOK(s, v, w.change)
    ensures PcInv(Touched(s, v, w.change).(pc := Received(Await(KMark, w), w, Touched(s, v, w.change).svc)))
  {
  }

  /** The update that the lock holder awaits lands and its reply arrives. */
  lemma ReplyUpdate(s: Sys, v: Service, k: Continuation, w: Write)
    requires Inv(s) && s.pc == Await(k, w) && s.svc == Some(v)
    requires w.Update? && Hits(s.svc, w.rv) && ChangeOK(s, v, w.change)
    ensures PcInv(Touched(s, v, w.change).(pc := Received(s.pc, w, Touched(s, v, w.change).svc)))
  {
    if k.KRebind? {
      ReplyRebind(s, v, k.r, k.rec, w);
    } else if k.KFence? || k.KRecoveryFence? {
      ReplyFence(s, v, k, w);
    } else if k.KActivate? || k.KRestore? {
      ReplyRetarget(s, v, k, w);
    } else {
      ReplyMark(s, v, w);
    }
  }

  lemma TickKeepsCore(s: Sys)
    requires Core(s)
    ensures Core(Moved(s, s.svc))
  {
    var t := Moved(s, s.svc);
    forall x | x in t.writes ensures WriteOK(t, x) {
      assert WriteOK(s, x);
    }
    forall r | r in t.db.checkpoints ensures IntentOK(t, r) {
      assert IntentOK(s, r);
    }
  }

  /** An update that changes nothing can only be a repeated restore of the same predecessor. */
  lemma IdleChange(s: Sys, v: Service, c: Change)
    requires Core(s) && s.svc == Some(v) && ChangeOK(s, v, c) && Changed(v, c) == v
    ensures c.Retarget? && v.op.ByRecovery?
  {
  }

  lemma TickKeepsPc(s: Sys)
    requires PcInv(s)
    ensures PcInv(Moved(s, s.svc))
  {
  }

  lemma IdlePc(s: Sys, v: Service, w: Write)
    requires SvcInv(s) && PcInv(s) && s.svc == Some(v)
    requires w.Update? && w.change.Retarget? && v.op.ByRecovery? && ChangeOK(s, v, w.change)
    requires Changed(v, w.change) == v && !s.env.bumps && s.pc.Await? && s.pc.w == w
    requires s.pc.k.KActivate? ==> !v.op.ByRecovery?
    ensures PcInv(Moved(s, s.svc).(pc := Received(s.pc, w, s.svc)))
  {
  }

  lemma ActivationNotFenced(s: Sys, v: Service)
    requires PendInv(s) && PcInv(s) && s.svc == Some(v) && s.pc.Await? && s.pc.k.KActivate?
    ensures !v.op.ByRecovery?
  {
    assert Tracks(s.env, s.pc.k.r, s.db.checkpoints[s.pc.k.r], v);
  }

  lemma IdleKeepsInv(s: Sys, v: Service, w: Write)
    requires Inv(s) && s.svc == Some(v)
    requires w.Update? && Hits(s.svc, w.rv) && ChangeOK(s, v, w.change)
    requires Changed(v, w.change) == v && !s.env.bumps
    ensures Inv(Moved(s, s.svc).(pc := Received(s.pc, w, s.svc)))
  {
    TickKeepsCore(s);
    CorePc(Moved(s, s.svc), Received(s.pc, w, s.svc));
    IdleChange(s, v, w.change);
    if s.pc.Await? && s.pc.w == w {
      if s.pc.k.KActivate? {
        ActivationNotFenced(s, v);
      }
      IdlePc(s, v, w);
    } else {
      TickKeepsPc(s);
    }
  }

  lemma TouchKeepsInv(s: Sys, v: Service, w: Write)
    requires Inv(s) && s.svc == Some(v)
    requires w in s.writes && w.Update? && Hits(s.svc, w.rv) && ChangeOK(s, v, w.change)
    requires s.env.bumps || Changed(v, w.change) != v
    ensures Inv(Touched(s, v, w.change).(pc := Received(s.pc, w, Touched(s, v, w.change).svc)))
  {
    var t := Touched(s, v, w.change);
    ChangeService(s, v, w.change);
    MovedWrites(s, t.svc);
    CorePc(t, Received(s.pc, w, t.svc));
    if s.pc.Await? && s.pc.w == w {
      ReplyUpdate(s, v, s.pc.k, w);
    } else {
      if s.pc.Captured? {
        assert !w.change.Rebind?;
      }
      BystanderUpdate(s, v, w.change);
    }
  }

  lemma ReplyOther(s: Sys, k: Continuation, w: Write)
    requires Inv(s) && s.pc == Await(k, w) && Enabled(s, Land(w)) && !w.Update?
    ensures PcInv(Next(s, Land(w)))
  {
    assert WriteOK(s, w);
  }

  lemma UpdateIs(s: Sys, w: Write)
    requires Enabled(s, Land(w)) && w.Update?
    ensures var v := s.svc.value;
            Next(s, Land(w)) ==
              if Changed(v, w.change) == v && !s.env.bumps
              then Moved(s, s.svc).(pc := Received(s.pc, w, s.svc))
              else Touched(s, v, w.change).(pc := Received(s.pc, w, Touched(s, v, w.change).svc))
  {
  }

  lemma UpdateKeepsInv(s: Sys, w: Write)
    requires Inv(s) && Enabled(s, Land(w)) && w.Update?
    ensures Inv(Next(s, Land(w)))
  {
    var v := s.svc.value;
    assert ChangeOK(s, v, w.change) by {
      assert WriteOK(s, w);
    }
    UpdateIs(s, w);
    if Changed(v, w.change) == v && !s.env.bumps {
      IdleKeepsInv(s, v, w);
    } else {
      TouchKeepsInv(s, v, w);
    }
  }

  lemma RemoveKeepsInv(s: Sys, w: Write)
    requires Inv(s) && Enabled(s, Land(w)) && w.Remove?
    ensures Inv(Next(s, Land(w)))
  {
    assert WriteOK(s, w);
    MovedWrites(s, None);
    CorePc(Moved(s, None), Next(s, Land(w)).pc);
    if s.pc.Await? && s.pc.w == w {
      ReplyOther(s, s.pc.k, w);
    } else {
      BystanderRemove(s, s.svc.value);
    }
  }

  lemma CreateKeepsCore(s: Sys, v: Service)
    requires Core(s) && s.svc.None? && Unseen(s, Some(v)) && v.target.sel.Inactive?
    requires v.op.Unset? || (v.op.ByDeletion? && v.deleting.Some?)
    ensures Core(Moved(s, Some(v)))
  {
    MovedWrites(s, Some(v));
  }

  lemma CreatedService(s: Sys, w: Write)
    requires WritesInv(s) && Enabled(s, Land(w)) && (w.Bootstrap? || w.Tombstone?)
    ensures LandedService(s, w).Some? && Unseen(s, LandedService(s, w)) && s.svc.None?
    ensures var v := LandedService(s, w).value;
            v.target.sel.Inactive? && (v.op.Unset? || (v.op.ByDeletion? && v.deleting.Some?))
    ensures Next(s, Land(w)) ==
              Moved(s, LandedService(s, w)).(pc := Received(s.pc, w, LandedService(s, w)))
  {
    assert WriteOK(s, w);
  }

  lemma CreateKeepsInv(s: Sys, w: Write)
    requires Inv(s) && Enabled(s, Land(w)) && (w.Bootstrap? || w.Tombstone?)
    ensures Inv(Next(s, Land(w)))
  {
    CreatedService(s, w);
    var v := LandedService(s, w).value;
    CreateKeepsCore(s, v);
    CorePc(Moved(s, Some(v)), Next(s, Land(w)).pc);
    if s.pc.Await? && s.pc.w == w {
      ReplyOther(s, s.pc.k, w);
    } else {
      BystanderCreate(s, v);
    }
  }

  /** Any dispatched Service write may land at any time. */
  lemma LandKeepsInv(s: Sys, w: Write)
    requires Inv(s) && Enabled(s, Land(w))
    ensures Inv(Next(s, Land(w)))
  {
    match w
    case Update(_, _) => UpdateKeepsInv(s, w);
    case Remove(_) => RemoveKeepsInv(s, w);
    case Bootstrap(_, _) => CreateKeepsInv(s, w);
    case Tombstone(_, _) => CreateKeepsInv(s, w);
  }
}
