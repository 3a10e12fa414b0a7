/** A request's life is one-way: what the database once says about it is never unsaid. */
module Life {
  import opened Types
  import opened Store
  import opened Machine

  /** The request keeps its identity; once terminal it keeps outcome and reply for ever. */
  predicate RequestOnward(q: Request, q': Request) {
    && q'.cfg == q.cfg && q'.report == q.report && q'.previous == q.previous
    && (q.state.Done? ==> q' == q)
  }

  /** The intent never changes and the stage never falls. */
  predicate CheckpointOnward(c: Checkpoint, c': Checkpoint) {
    c'.intent == c.intent && Rank(c.stage) <= Rank(c'.stage) && (c.stage == c'.stage ==> c' == c)
  }

  ghost predicate Onward(d: AppData, d': AppData) {
    && (forall r :: r in d.requests ==> r in d'.requests && RequestOnward(d.requests[r], d'.requests[r]))
    && (forall r :: r in d.bindings ==> r in d'.bindings && d'.bindings[r] == d.bindings[r])
    && (forall r :: r in d.checkpoints ==>
          r in d'.checkpoints && CheckpointOnward(d.checkpoints[r], d'.checkpoints[r]))
    && d.withdrawals <= d'.withdrawals
    && (d.row.Some? ==> d'.row.Some? && d'.row.value.id == d.row.value.id)
  }

  lemma OnwardTrans(d: AppData, e: AppData, f: AppData)
    requires Onward(d, e) && Onward(e, f)
    ensures Onward(d, f)
  {
    forall r | r in d.requests
      ensures r in f.requests && RequestOnward(d.requests[r], f.requests[r])
    {
      assert RequestOnward(d.requests[r], e.requests[r]) && RequestOnward(e.requests[r], f.requests[r]);
    }
    forall r | r in d.checkpoints
      ensures r in f.checkpoints && CheckpointOnward(d.checkpoints[r], f.checkpoints[r])
    {
      assert CheckpointOnward(d.checkpoints[r], e.checkpoints[r]);
      assert CheckpointOnward(e.checkpoints[r], f.checkpoints[r]);
    }
  }

  /** Every gate that is recorded strictly raises the stage and touches nothing else. */
  lemma RecordRaises(d: AppData, r: Req, expected: Stage, next: Stage, gate: SavedGate)
    requires RecordGateTx(d, r, expected, next, gate).Some?
    ensures var e := RecordGateTx(d, r, expected, next, gate).value;
            && Rank(d.checkpoints[r].stage) < Rank(e.checkpoints[r].stage)
            && e.checkpoints[r] == Checkpoint(next, d.checkpoints[r].intent, gate)
            && e.checkpoints - {r} == d.checkpoints - {r}
            && e.(checkpoints := d.checkpoints) == d
  {
    var e := RecordGateTx(d, r, expected, next, gate).value;
    assert e.checkpoints - {r} == d.checkpoints - {r};
  }

  lemma FinalizeOnward(d: AppData, r: Req, o: Outcome, expected: SavedGate)
    requires FinalizeTx(d, r, o, expected).Some?
    ensures Onward(d, FinalizeTx(d, r, o, expected).value.0)
  {
  }

  /** A committed outcome answers every later call: the same outcome gets the very same reply,
      the other one is refused, and neither call changes a row. */
  lemma ReplyIsFinal(d: AppData, d': AppData, r: Req, o: Outcome, expected: SavedGate, o2: Outcome)
    requires DbInv(d) && Ended(d, r, o) && Onward(d, d')
    ensures d.requests[r].reply.Some?
    ensures FinalizeTx(d', r, o2, expected) ==
              if o2 == o then Some((d', d.requests[r].reply.value)) else None
  {
    assert RequestOK(d, r);
    assert RequestOnward(d.requests[r], d'.requests[r]);
  }

  // ------------------------------------------------------------------ steps

  lemma DbUntouched(s: Sys, a: Action)
    requires Enabled(s, a) && !TouchesDb(a)
    ensures Next(s, a).db == s.db
  {
  }

  lemma ServiceUntouched(s: Sys, a: Action)
    requires Enabled(s, a) && !a.Land?
    ensures Next(s, a).svc == s.svc
  {
  }

  lemma RecordedOnward(s: Sys, r: Req, expected: Stage, next: Stage, gate: SavedGate, pc: Pc)
    ensures Onward(s.db, Recorded(s, r, expected, next, gate, pc).0)
  {
  }

  lemma BeginTxOnward(d: AppData, r: Req, cfg: Config, report: bool, appId: nat, depId: nat,
                      free: bool, withdrawal: bool)
    requires KeysOK(d)
    ensures var e := BeginTx(d, r, cfg, report, appId, depId, free, withdrawal);
            e.Some? ==> Onward(d, e.value)
  {
    if r !in d.bindings {
      NewOnward(d, r, cfg, report, appId, depId, free, withdrawal);
    }
  }

  lemma NewOnward(d: AppData, r: Req, cfg: Config, report: bool, appId: nat, depId: nat,
                  free: bool, withdrawal: bool)
    requires KeysOK(d) && r !in d.bindings && r !in d.requests
    ensures var e := BeginTx(d, r, cfg, report, appId, depId, free, withdrawal);
            e.Some? ==> Onward(d, e.value)
  {
  }

  lemma BeginOnward(s: Sys, appId: nat, depId: nat, free: bool)
    requires KeysOK(s.db) && Enabled(s, Begin(appId, depId, free))
    ensures Onward(s.db, Transact(s, Begin(appId, depId, free)).0)
  {
    var p := s.pc;
    BeginTxOnward(s.db, p.r, p.cfg, p.report, appId, depId, free, p.withdraw);
  }

  lemma CommitOnward(s: Sys)
    requires Enabled(s, Commit)
    ensures Onward(s.db, Transact(s, Commit).0)
  {
    var result := FinalizeTx(s.db, s.pc.r, s.pc.o, s.db.checkpoints[s.pc.r].saved);
    if result.Some? {
      FinalizeOnward(s.db, s.pc.r, s.pc.o, s.db.checkpoints[s.pc.r].saved);
    }
  }

  predicate RecordsGate(a: Action) {
    a.RecordFenced? || a.RecordActivated? || a.RecordRecovering? || a.RecordWithdrawn?
  }

  lemma RecordOnward(s: Sys, a: Action)
    requires Enabled(s, a) && RecordsGate(a)
    ensures Onward(s.db, Transact(s, a).0)
  {
    match a
    case RecordFenced => RecordedOnward(s, s.pc.k.r, Prepared, Fenced, Token(s.pc.gate), Deploying(s.pc.k.r));
    case RecordActivated => RecordedOnward(s, s.pc.k.r, Fenced, Activated, Token(s.pc.gate), Completing(s.pc.k.r));
    case RecordRecovering =>
      RecordedOnward(s, s.pc.r, s.db.checkpoints[s.pc.r].stage, Recovering, RecoveryId(s.pc.r), RestoreCapture(s.pc.r));
    case RecordWithdrawn =>
      RecordedOnward(s, s.pc.k.r, Recovering, Stage.Withdrawn, Token(s.pc.gate), Retiring(s.pc.k.r));
  }

  lemma OtherOnward(s: Sys, a: Action)
    requires Enabled(s, a) && (a.StartRecover? || a.SaveIntent? || a.DeleteRoutes? || a.DeleteRow?)
    ensures Onward(s.db, Transact(s, a).0)
  {
  }

  lemma TransactOnward(s: Sys, a: Action)
    requires KeysOK(s.db) && Enabled(s, a) && TouchesDb(a)
    ensures Onward(s.db, Transact(s, a).0)
  {
    if a.Begin? {
      BeginOnward(s, a.appId, a.depId, a.free);
    } else if a.Commit? {
      CommitOnward(s);
    } else if RecordsGate(a) {
      RecordOnward(s, a);
    } else {
      OtherOnward(s, a);
    }
  }

  /** Every step of the protocol only moves the database onward. */
  lemma StepOnward(s: Sys, a: Action)
    requires KeysOK(s.db) && Enabled(s, a)
    ensures Onward(s.db, Next(s, a).db)
  {
    if TouchesDb(a) {
      TransactOnward(s, a);
    } else {
      DbUntouched(s, a);
    }
  }

  /** Where a transaction leaves the lock holder. */
  lemma TransactionPc(s: Sys, a: Action)
    requires Enabled(s, a) && TouchesDb(a)
    ensures var pc := Next(s, a).pc;
            && !pc.Checked? && !pc.Captured? && !pc.Await? && !pc.Observed? && !pc.Committing?
            && (pc.Advancing? ==> a.Begin? && pc.r in Next(s, a).db.checkpoints)
  {
  }

  /** Only begin makes a request pending. */
  lemma NoNewPending(s: Sys, a: Action, r: Req)
    requires Enabled(s, a) && !a.Begin? && Pend(Next(s, a).db, r)
    ensures Pend(s.db, r)
  {
    if !TouchesDb(a) {
      DbUntouched(s, a);
    }
  }
}
