/** Every database transaction of the lock holder keeps the invariant. */
module Transactions {
  import opened Types
  import opened Store
  import opened Machine
  import opened Invariant
  import opened Reads

  function WithDb(s: Sys, d: AppData): Sys {
    s.(db := d)
  }

  // ------------------------------------------------------------------ begin

  lemma WithdrawalKeepsCore(s: Sys, r: Req)
    requires Core(s) && Pend(s.db, r)
    ensures Core(WithDb(s, s.db.(withdrawals := s.db.withdrawals + {r})))
  {
    WithdrawalKeepsDbInv(s.db, r);
    WithdrawalKeepsWrites(s, r);
    WithdrawalKeepsService(s, r);
  }

  lemma WithdrawalKeepsWrites(s: Sys, r: Req)
    requires WritesInv(s)
    ensures WritesInv(WithDb(s, s.db.(withdrawals := s.db.withdrawals + {r})))
  {
    var t := WithDb(s, s.db.(withdrawals := s.db.withdrawals + {r}));
    forall w | w in t.writes ensures WriteOK(t, w) {
      assert WriteOK(s, w);
      assert forall q :: Pend(t.db, q) <==> Pend(s.db, q);
    }
  }

  lemma WithdrawalKeepsService(s: Sys, r: Req)
    requires SvcInv(s) && PendInv(s) && IntentInv(s) && RetireInv(s)
    ensures var t := WithDb(s, s.db.(withdrawals := s.db.withdrawals + {r}));
            SvcInv(t) && PendInv(t) && IntentInv(t) && RetireInv(t)
  {
    var t := WithDb(s, s.db.(withdrawals := s.db.withdrawals + {r}));
    assert forall q :: Pend(t.db, q) <==> Pend(s.db, q);
    forall q | q in t.db.checkpoints ensures IntentOK(t, q) {
      assert IntentOK(s, q);
    }
  }

  /** Accepting a new request: no other is pending, so no write of an older one is in force. */
  lemma AcceptKeepsWrites(s: Sys, d: AppData, r: Req)
    requires Core(s) && NoRemovalAhead(s) && NoPending(s.db)
    requires r !in s.db.requests && r in d.requests && Pend(d, r)
    requires d.checkpoints == s.db.checkpoints && r !in d.checkpoints
    requires forall q :: q != r ==> (Pend(d, q) <==> Pend(s.db, q))
    ensures WritesInv(WithDb(s, d))
  {
    var t := WithDb(s, d);
    forall w | w in t.writes ensures WriteOK(t, w) {
      assert WriteOK(s, w);
    }
  }

  lemma AcceptKeepsService(s: Sys, d: AppData, r: Req)
    requires SvcInv(s) && IntentInv(s) && RetireInv(s) && NoPending(s.db) && r !in s.db.checkpoints
    requires r !in s.db.requests && r in d.requests && d.requests == s.db.requests[r := d.requests[r]]
    requires d.checkpoints == s.db.checkpoints
    ensures SvcInv(WithDb(s, d)) && PendInv(WithDb(s, d)) && IntentInv(WithDb(s, d)) && RetireInv(WithDb(s, d))
  {
    var t := WithDb(s, d);
    forall q | q in t.db.checkpoints ensures IntentOK(t, q) && !Pend(t.db, q) {
      assert IntentOK(s, q);
      assert !Pend(s.db, q);
    }
  }

  lemma AcceptKeepsCore(s: Sys, r: Req, cfg: Config, report: bool, appId: nat, depId: nat,
                        free: bool, withdrawal: bool)
    requires Core(s) && NoRemovalAhead(s) && r !in s.db.bindings
    requires BeginTx(s.db, r, cfg, report, appId, depId, free, withdrawal).Some?
    ensures Core(WithDb(s, BeginTx(s.db, r, cfg, report, appId, depId, free, withdrawal).value))
  {
    var d := BeginTx(s.db, r, cfg, report, appId, depId, free, withdrawal).value;
    var t := WithDb(s, d);
    NotBusy(s.db);
    BeginKeepsDbInv(s.db, r, cfg, report, appId, depId, free, withdrawal);
    assert forall q :: q != r ==> (Pend(d, q) <==> Pend(s.db, q));
    AcceptKeepsWrites(s, d, r);
    AcceptKeepsService(s, d, r);
  }

  lemma BeginKeepsInv(s: Sys, appId: nat, depId: nat, free: bool)
    requires Inv(s) && Enabled(s, Begin(appId, depId, free))
    ensures Inv(Next(s, Begin(appId, depId, free)))
  {
    var p := s.pc;
    var result := BeginTx(s.db, p.r, p.cfg, p.report, appId, depId, free, p.withdraw);
    if result.None? {
      CorePc(s, Idle);
    } else {
      if p.r !in s.db.bindings {
        AcceptKeepsCore(s, p.r, p.cfg, p.report, appId, depId, free, p.withdraw);
      } else if p.withdraw && Pend(s.db, p.r) {
        WithdrawalKeepsCore(s, p.r);
      }
      CorePc(WithDb(s, result.value), AfterBegin(result.value, p.r, p.withdraw));
      assert p.withdraw && Pend(result.value, p.r) ==> p.r in result.value.withdrawals;
      AfterBeginPc(WithDb(s, result.value), p.r, p.withdraw);
    }
  }

  lemma AfterBeginPc(t: Sys, r: Req, withdraw: bool)
    requires withdraw && Pend(t.db, r) ==> r in t.db.withdrawals
    ensures PcInv(t.(pc := AfterBegin(t.db, r, withdraw)))
  {
  }

  lemma StartRecoverKeepsInv(s: Sys, r: Req)
    requires Inv(s) && Enabled(s, StartRecover(r))
    ensures Inv(Next(s, StartRecover(r)))
  {
    if Pend(s.db, r) {
      WithdrawalKeepsCore(s, r);
      CorePc(WithDb(s, s.db.(withdrawals := s.db.withdrawals + {r})), RecoverFrom(s.db, r));
    }
  }

  // ----------------------------------------------------------------- intent

  lemma SaveIntentKeepsWrites(s: Sys, d: AppData, r: Req, intent: Intent)
    requires Core(s) && Pend(s.db, r) && r !in s.db.checkpoints && NoRebindAhead(s)
    requires d == s.db.(checkpoints := s.db.checkpoints[r := Checkpoint(Prepared, intent, Empty)])
    requires s.svc.Some? && (AtStart(intent, s.svc.value) || s.svc.value.deleting.Some?)
    ensures WritesInv(WithDb(s, d))
  {
    var t := WithDb(s, d);
    forall w | w in t.writes ensures WriteOK(t, w) {
      assert WriteOK(s, w);
    }
  }

  lemma SaveIntentKeepsService(s: Sys, d: AppData, r: Req, snap: Service)
    requires SvcInv(s) && RetireInv(s) && OnePending(s.db) && Pend(s.db, r) && r !in s.db.checkpoints
    requires SnapOK(s, r, snap)
    requires var intent := Intent(s.db.requests[r].cfg, GateOf(snap), snap.target);
             d == s.db.(checkpoints := s.db.checkpoints[r := Checkpoint(Prepared, intent, Empty)])
    ensures SvcInv(WithDb(s, d)) && PendInv(WithDb(s, d)) && RetireInv(WithDb(s, d)) && IntentOK(WithDb(s, d), r)
  {
    var t := WithDb(s, d);
    forall q | Pend(t.db, q) && q in t.db.checkpoints
      ensures t.svc.Some? && Tracks(t.env, q, t.db.checkpoints[q], t.svc.value)
    {
      assert Pend(s.db, q) && q == r;
    }
  }

  lemma SaveIntentKeepsIntents(s: Sys, d: AppData, r: Req, c: Checkpoint)
    requires IntentInv(s) && r !in s.db.checkpoints && c.stage == Prepared
    requires d == s.db.(checkpoints := s.db.checkpoints[r := c]) && IntentOK(WithDb(s, d), r)
    ensures IntentInv(WithDb(s, d))
  {
    var t := WithDb(s, d);
    forall q | q in t.db.checkpoints ensures IntentOK(t, q) {
      assert q != r ==> IntentOK(s, q);
    }
  }

  lemma SaveIntentKeepsCore(s: Sys, r: Req, snap: Service)
    requires Core(s) && Pend(s.db, r) && r !in s.db.checkpoints && NoRebindAhead(s) && SnapOK(s, r, snap)
    ensures var intent := Intent(s.db.requests[r].cfg, GateOf(snap), snap.target);
            Core(WithDb(s, s.db.(checkpoints := s.db.checkpoints[r := Checkpoint(Prepared, intent, Empty)])))
  {
    var intent := Intent(s.db.requests[r].cfg, GateOf(snap), snap.target);
    var d := s.db.(checkpoints := s.db.checkpoints[r := Checkpoint(Prepared, intent, Empty)]);
    var t := WithDb(s, d);
    SaveIntentKeepsDbInv(s.db, r, intent);
    SaveIntentKeepsWrites(s, d, r, intent);
    SaveIntentKeepsService(s, d, r, snap);
    SaveIntentKeepsIntents(s, d, r, d.checkpoints[r]);
  }

  lemma SaveIntentKeepsInv(s: Sys)
    requires Inv(s) && Enabled(s, SaveIntent)
    ensures Inv(Next(s, SaveIntent))
  {
    SaveIntentKeepsCore(s, s.pc.r, s.pc.snap);
    CorePc(WithDb(s, Next(s, SaveIntent).db), Next(s, SaveIntent).pc);
  }

  // ------------------------------------------------------------------ gates

  /** The rows after a gate of `r` was recorded. */
  function WithGate(s: Sys, r: Req, next: Stage, saved: SavedGate): Sys
    requires r in s.db.checkpoints
  {
    WithDb(s, s.db.(checkpoints := s.db.checkpoints[r := s.db.checkpoints[r].(stage := next, saved := saved)]))
  }

  /** The recorded gate describes the Service as it is. */
  ghost predicate GateFits(s: Sys, r: Req, next: Stage, saved: SavedGate) {
    && Pend(s.db, r) && r in s.db.checkpoints && ValidTransition(s.db.checkpoints[r].stage, next)
    && s.svc.Some?
    && Tracks(s.env, r, s.db.checkpoints[r].(stage := next, saved := saved), s.svc.value)
    && (saved.Token? ==> saved.gate.rv < s.nextRv)
  }

  lemma GateKeepsService(s: Sys, r: Req, next: Stage, saved: SavedGate)
    requires DbInv(s.db) && SvcInv(s) && RetireInv(s) && GateFits(s, r, next, saved) && IntentOK(s, r)
    ensures var t := WithGate(s, r, next, saved); SvcInv(t) && RetireInv(t)
  {
    var t := WithGate(s, r, next, saved);
    assert forall q :: Pend(t.db, q) <==> Pend(s.db, q);
    assert forall q, stage :: q != r ==> (At(t.db, q, stage) <==> At(s.db, q, stage));
  }

  lemma GateKeepsIntents(s: Sys, r: Req, next: Stage, saved: SavedGate)
    requires DbInv(s.db) && PendInv(s) && IntentInv(s) && GateFits(s, r, next, saved)
    ensures var t := WithGate(s, r, next, saved); IntentInv(t) && PendInv(t)
  {
    var t := WithGate(s, r, next, saved);
    forall q | q in t.db.checkpoints ensures IntentOK(t, q) {
      assert IntentOK(s, q);
      assert Pend(t.db, q) ==> Pend(s.db, q);
    }
    forall q | Pend(t.db, q) && q in t.db.checkpoints
      ensures t.svc.Some? && Tracks(t.env, q, t.db.checkpoints[q], t.svc.value)
    {
      assert Pend(s.db, q);
    }
  }

  lemma GateKeepsWrite(s: Sys, r: Req, next: Stage, saved: SavedGate, w: Write)
    requires DbInv(s.db) && GateFits(s, r, next, saved) && IntentOK(s, r) && WriteOK(s, w)
    ensures WriteOK(WithGate(s, r, next, saved), w)
  {
    var t := WithGate(s, r, next, saved);
    assert forall q, stage :: q != r ==> (At(t.db, q, stage) <==> At(s.db, q, stage));
    if w.Update? && Hits(s.svc, w.rv) {
      match w.change
      case Mark(_, _) =>
        forall q | Pend(t.db, q) && q in t.db.checkpoints
          ensures AtStart(t.db.checkpoints[q].intent, t.svc.value)
        {
          assert Pend(s.db, q);
        }
      case _ =>
    }
  }

  /** A database invariant for gate recording and its effect on everything else. */
  lemma GateKeepsCore(s: Sys, r: Req, next: Stage, saved: SavedGate)
    requires Core(s) && GateFits(s, r, next, saved)
    ensures Core(WithGate(s, r, next, saved))
    ensures RecordGateTx(s.db, r, s.db.checkpoints[r].stage, next, saved)
            == Some(WithGate(s, r, next, saved).db)
  {
    var t := WithGate(s, r, next, saved);
    assert IntentOK(s, r);
    RecordGateKeepsDbInv(s.db, r, s.db.checkpoints[r].stage, next, saved);
    GateKeepsService(s, r, next, saved);
    GateKeepsIntents(s, r, next, saved);
    forall w | w in t.writes ensures WriteOK(t, w) {
      assert WriteOK(s, w);
      GateKeepsWrite(s, r, next, saved, w);
    }
  }

  lemma GateKeepsInv(s: Sys, r: Req, next: Stage, saved: SavedGate, pc: Pc)
    requires Core(s) && GateFits(s, r, next, saved) && PcInv(WithGate(s, r, next, saved).(pc := pc))
    ensures Inv(WithGate(s, r, next, saved).(pc := pc))
  {
    GateKeepsCore(s, r, next, saved);
    CorePc(WithGate(s, r, next, saved), pc);
  }

  lemma RecordFencedKeepsInv(s: Sys)
    requires Inv(s) && Enabled(s, RecordFenced)
    ensures Inv(Next(s, RecordFenced))
  {
    var r := s.pc.k.r;
    assert Tracks(s.env, r, s.db.checkpoints[r], s.svc.value);
    assert IntentOK(s, r);
    GateKeepsCore(s, r, Fenced, Token(s.pc.gate));
    CorePc(WithGate(s, r, Fenced, Token(s.pc.gate)), Deploying(r));
  }

  lemma RecordActivatedKeepsInv(s: Sys)
    requires Inv(s) && Enabled(s, RecordActivated)
    ensures Inv(Next(s, RecordActivated))
  {
    var r := s.pc.k.r;
    ActivatedFits(s, r, s.pc.gate);
    GateKeepsInv(s, r, Activated, Token(s.pc.gate), Completing(r));
  }

  lemma ActivatedFits(s: Sys, r: Req, gate: Gate)
    requires PendInv(s) && SvcInv(s) && GotOK(s, KActivate(r), gate)
    ensures GateFits(s, r, Activated, Token(gate))
    ensures PcInv(WithGate(s, r, Activated, Token(gate)).(pc := Completing(r)))
  {
    assert Tracks(s.env, r, s.db.checkpoints[r], s.svc.value);
  }

  lemma RecordRecoveringKeepsInv(s: Sys)
    requires Inv(s) && Enabled(s, RecordRecovering)
    ensures Inv(Next(s, RecordRecovering))
  {
    var r := s.pc.r;
    RecordRecoveringIs(s, r);
    if At(s.db, r, Stage.Withdrawn) || At(s.db, r, Recovering) {
      GoesOnRecovering(s, r);
    } else {
      StartsRecovering(s, r);
    }
  }

  lemma RecordRecoveringIs(s: Sys, r: Req)
    requires Enabled(s, RecordRecovering) && s.pc.r == r
    ensures s.pc == Restoring(r) && Pend(s.db, r) && r in s.db.checkpoints
    ensures Next(s, RecordRecovering) ==
              if At(s.db, r, Stage.Withdrawn) then s.(pc := Retiring(r))
              else if At(s.db, r, Recovering) then s.(pc := RestoreCapture(r))
              else WithGate(s, r, Recovering, RecoveryId(r)).(pc := RestoreCapture(r))
  {
  }

  lemma GoesOnRecovering(s: Sys, r: Req)
    requires Inv(s) && s.pc == Restoring(r)
    ensures At(s.db, r, Stage.Withdrawn) ==> Inv(s.(pc := Retiring(r)))
    ensures At(s.db, r, Recovering) ==> Inv(s.(pc := RestoreCapture(r)))
  {
    CorePc(s, Retiring(r));
    CorePc(s, RestoreCapture(r));
  }

  lemma StartsRecovering(s: Sys, r: Req)
    requires Inv(s) && s.pc == Restoring(r) && (At(s.db, r, Prepared) || At(s.db, r, Fenced) || At(s.db, r, Activated))
    ensures Inv(WithGate(s, r, Recovering, RecoveryId(r)).(pc := RestoreCapture(r)))
  {
    RecoveringFits(s, r);
    GateKeepsInv(s, r, Recovering, RecoveryId(r), RestoreCapture(r));
  }

  lemma RecoveringFits(s: Sys, r: Req)
    requires PendInv(s) && Pend(s.db, r) && (At(s.db, r, Prepared) || At(s.db, r, Fenced) || At(s.db, r, Activated))
    ensures GateFits(s, r, Recovering, RecoveryId(r))
  {
    assert Tracks(s.env, r, s.db.checkpoints[r], s.svc.value);
  }

  lemma RecordWithdrawnKeepsInv(s: Sys)
    requires Inv(s) && Enabled(s, RecordWithdrawn)
    ensures Inv(Next(s, RecordWithdrawn))
  {
    RecordWithdrawnIs(s);
    WithdrawnFits(s, s.pc.k.r, s.pc.gate);
    GateKeepsInv(s, s.pc.k.r, Stage.Withdrawn, Token(s.pc.gate), Retiring(s.pc.k.r));
  }

  lemma RecordWithdrawnIs(s: Sys)
    requires PcInv(s) && Enabled(s, RecordWithdrawn)
    ensures GotOK(s, KRestore(s.pc.k.r), s.pc.gate)
    ensures Next(s, RecordWithdrawn) ==
              WithGate(s, s.pc.k.r, Stage.Withdrawn, Token(s.pc.gate)).(pc := Retiring(s.pc.k.r))
  {
  }

  lemma WithdrawnFits(s: Sys, r: Req, gate: Gate)
    requires PendInv(s) && GotOK(s, KRestore(r), gate)
    ensures GateFits(s, r, Stage.Withdrawn, Token(gate))
    ensures PcInv(WithGate(s, r, Stage.Withdrawn, Token(gate)).(pc := Retiring(r)))
  {
    assert Tracks(s.env, r, s.db.checkpoints[r], s.svc.value);
  }

  // ----------------------------------------------------------------- commit

  /** Whoever reaches the commit leaves the Service exactly where the receipt says. */
  lemma FinalizeKeepsService(s: Sys, r: Req, o: Outcome, d: AppData)
    requires DbInv(s.db) && SvcInv(s) && PendInv(s) && IntentInv(s) && RetireInv(s)
    requires Pend(s.db, r) && At(s.db, r, WantedStage(o))
    requires d.checkpoints == s.db.checkpoints
    requires r in d.requests
    requires d.requests == s.db.requests[r := s.db.requests[r].(state := Done(o), reply := d.requests[r].reply)]
    ensures var t := WithDb(s, d); SvcInv(t) && PendInv(t) && IntentInv(t) && RetireInv(t)
  {
    var t := WithDb(s, d);
    assert Tracks(s.env, r, s.db.checkpoints[r], s.svc.value);
    assert RequestOK(s.db, r);
    forall q | q in t.db.checkpoints ensures IntentOK(t, q) && !Pend(t.db, q) {
      assert IntentOK(s, q);
      assert Pend(s.db, q) ==> q == r;
    }
  }

  lemma FinalizeKeepsWrites(s: Sys, r: Req, o: Outcome, d: AppData)
    requires Core(s) && Pend(s.db, r) && At(s.db, r, WantedStage(o))
    requires d.checkpoints == s.db.checkpoints && d.bindings == s.db.bindings
    requires r in d.requests
    requires d.requests == s.db.requests[r := s.db.requests[r].(state := Done(o), reply := d.requests[r].reply)]
    ensures WritesInv(WithDb(s, d))
  {
    var t := WithDb(s, d);
    assert Tracks(s.env, r, s.db.checkpoints[r], s.svc.value);
    assert IntentOK(s, r);
    forall w | w in t.writes ensures WriteOK(t, w) {
      assert WriteOK(s, w);
      assert forall q :: Pend(t.db, q) ==> Pend(s.db, q);
    }
  }

  lemma FinalizeKeepsCore(s: Sys, r: Req, o: Outcome)
    requires Core(s) && Pend(s.db, r) && r in s.db.checkpoints && (o.Applied? ==> r !in s.db.withdrawals)
    requires FinalizeTx(s.db, r, o, s.db.checkpoints[r].saved).Some?
    ensures Core(WithDb(s, FinalizeTx(s.db, r, o, s.db.checkpoints[r].saved).value.0))
  {
    var d := FinalizeTx(s.db, r, o, s.db.checkpoints[r].saved).value.0;
    FinalizeKeepsDbInv(s.db, r, o, s.db.checkpoints[r].saved);
    FinalizeKeepsService(s, r, o, d);
    FinalizeKeepsWrites(s, r, o, d);
  }

  lemma CommitKeepsPc(s: Sys)
    requires PcInv(s) && Enabled(s, Commit)
    ensures PcInv(Next(s, Commit))
  {
  }

  lemma CommitKeepsInv(s: Sys)
    requires Inv(s) && Enabled(s, Commit)
    ensures Inv(Next(s, Commit))
  {
    CommitKeepsPc(s);
    var r, o := s.pc.r, s.pc.o;
    var result := FinalizeTx(s.db, r, o, s.db.checkpoints[r].saved);
    if result.None? {
      CorePc(s, Idle);
    } else {
      FinalizeKeepsCore(s, r, o);
      CorePc(WithDb(s, result.value.0), Next(s, Commit).pc);
    }
  }

  // --------------------------------------------------------------- deletion

  lemma RowKeepsCore(s: Sys, d: AppData)
    requires Core(s) && DbInv(d)
    requires d == s.db.(row := d.row, route := d.route)
    requires d.row.Some? && (s.db.row.Some? && s.db.row.value.deleted ==> d.row.value.deleted)
    ensures Core(WithDb(s, d))
  {
    RowKeepsWrites(s, d);
    RowKeepsService(s, d);
  }

  lemma RowKeepsWrites(s: Sys, d: AppData)
    requires WritesInv(s) && d == s.db.(row := d.row, route := d.route)
    requires d.row.Some? && (s.db.row.Some? && s.db.row.value.deleted ==> d.row.value.deleted)
    ensures WritesInv(WithDb(s, d))
  {
    var t := WithDb(s, d);
    forall w | w in t.writes ensures WriteOK(t, w) {
      assert WriteOK(s, w);
      assert forall q :: Pend(t.db, q) <==> Pend(s.db, q);
    }
  }

  lemma RowKeepsService(s: Sys, d: AppData)
    requires SvcInv(s) && PendInv(s) && IntentInv(s) && RetireInv(s) && d == s.db.(row := d.row, route := d.route)
    ensures var t := WithDb(s, d); SvcInv(t) && PendInv(t) && IntentInv(t) && RetireInv(t)
  {
    var t := WithDb(s, d);
    assert forall q :: Pend(t.db, q) <==> Pend(s.db, q);
    forall q | q in t.db.checkpoints ensures IntentOK(t, q) {
      assert IntentOK(s, q);
    }
  }

  lemma DeleteRoutesKeepsInv(s: Sys)
    requires Inv(s) && Enabled(s, DeleteRoutes)
    ensures Inv(Next(s, DeleteRoutes))
  {
    DeleteRoutesKeepsDbInv(s.db);
    RowKeepsCore(s, DeleteRoutesTx(s.db));
    CorePc(WithDb(s, DeleteRoutesTx(s.db)), DeleteRouted(s.pc.gate));
    assert forall q :: Pend(DeleteRoutesTx(s.db), q) <==> Pend(s.db, q);
  }

  lemma DeleteRowKeepsPc(s: Sys)
    requires PcInv(s) && Enabled(s, DeleteRow)
    ensures PcInv(Next(s, DeleteRow))
  {
    assert forall q :: Pend(MarkDeletedTx(s.db), q) <==> Pend(s.db, q);
  }

  lemma DeleteRowKeepsInv(s: Sys)
    requires Inv(s) && Enabled(s, DeleteRow)
    ensures Inv(Next(s, DeleteRow))
  {
    MarkDeletedKeepsDbInv(s.db);
    RowKeepsCore(s, MarkDeletedTx(s.db));
    CorePc(WithDb(s, MarkDeletedTx(s.db)), DeleteRowed(s.pc.gate));
    DeleteRowKeepsPc(s);
  }
}
