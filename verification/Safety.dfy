/** The safety theorems of the candidate deployment protocol, over every run from an initial
    state, with crashes, lost replies and arbitrarily delayed Service and Deployment writes. */
module Safety {
  import opened Types
  import opened Store
  import opened Machine
  import opened Invariant
  import opened Life
  import opened Runs
  import Landing

  predicate Selects(s: Sys, r: Req) {
    s.svc.Some? && s.svc.value.target.sel == Candidate(r)
  }

  // ------------------------------------------------ a fenced candidate stays out

  /** The recovery fence of `r` has landed on the Service. */
  predicate FencedOff(s: Sys, r: Req) {
    At(s.db, r, Stage.Withdrawn) || (s.svc.Some? && s.svc.value.op == ByRecovery(r))
  }

  lemma FenceSurvivesUpdate(s: Sys, w: Write, r: Req)
    requires Inv(s) && Enabled(s, Land(w)) && FencedOff(s, r)
    ensures FencedOff(Next(s, Land(w)), r)
  {
    assert WriteOK(s, w);
    if !At(s.db, r, Stage.Withdrawn) {
      assert At(s.db, r, Recovering) && RequestOK(s.db, r) && IntentOK(s, r);
      assert Pend(s.db, r);
      if w.Update? {
        Landing.OwnedUpdate(s, s.svc.value, w.change, r);
      }
    }
  }

  lemma FenceSurvives(s: Sys, a: Action, r: Req)
    requires Inv(s) && Enabled(s, a) && FencedOff(s, r)
    ensures FencedOff(Next(s, a), r)
  {
    if a.Land? {
      FenceSurvivesUpdate(s, a.w, r);
    } else {
      StepOnward(s, a);
      ServiceUntouched(s, a);
      if At(s.db, r, Stage.Withdrawn) {
        WithdrawnKept(s.db, Next(s, a).db, r);
      }
    }
  }

  lemma WithdrawnKept(d: AppData, e: AppData, r: Req)
    requires Onward(d, e) && At(d, r, Stage.Withdrawn)
    ensures At(e, r, Stage.Withdrawn)
  {
    assert CheckpointOnward(d.checkpoints[r], e.checkpoints[r]);
  }

  /** After the fence, no step moves traffic to the abandoned candidate. */
  lemma FencedNeverReselected(s: Sys, a: Action, r: Req)
    requires Inv(s) && Enabled(s, a) && FencedOff(s, r)
    ensures Selects(Next(s, a), r) ==> Selects(s, r)
  {
    if !a.Land? {
      ServiceUntouched(s, a);
    } else if At(s.db, r, Stage.Withdrawn) {
      StepKeepsInv(s, a);
      StepOnward(s, a);
      WithdrawnKept(s.db, Next(s, a).db, r);
      WithdrawnNotSelected(Next(s, a), r);
    } else {
      FencedLanding(s, a.w, r);
    }
  }

  lemma FencedLanding(s: Sys, w: Write, r: Req)
    requires WritesInv(s) && IntentInv(s) && SvcInv(s) && Enabled(s, Land(w)) && s.svc.Some?
    requires s.svc.value.op == ByRecovery(r)
    ensures Selects(Next(s, Land(w)), r) ==> Selects(s, r)
  {
    assert WriteOK(s, w);
    assert r in s.db.checkpoints && IntentOK(s, r);
  }

  lemma {:induction false} FenceSurvivesRun(s: Sys, acts: seq<Action>, r: Req)
    requires Inv(s) && ValidRun(s, acts) && FencedOff(s, r)
    ensures Inv(Exec(s, acts)) && FencedOff(Exec(s, acts), r)
    decreases |acts|
  {
    if acts != [] {
      StepKeepsInv(s, acts[0]);
      FenceSurvives(s, acts[0], r);
      FenceSurvivesRun(Next(s, acts[0]), acts[1..], r);
    }
  }

  lemma WithdrawnNotSelected(s: Sys, r: Req)
    requires SvcInv(s) && At(s.db, r, Stage.Withdrawn)
    ensures !Selects(s, r)
  {
  }

  /** Once the recovery fence of `r` has landed, no later step of any run selects its generation,
      and once its checkpoint is withdrawn the Service never selects it again. */
  lemma NoReactivation(s0: Sys, before: seq<Action>, after: seq<Action>, a: Action, r: Req)
    requires Init(s0) && ValidRun(s0, before)
    requires FencedOff(Exec(s0, before), r)
    requires ValidRun(Exec(s0, before), after) && Enabled(Exec(Exec(s0, before), after), a)
    ensures var s := Exec(Exec(s0, before), after);
            && (Selects(Next(s, a), r) ==> Selects(s, r))
            && (At(Exec(s0, before).db, r, Stage.Withdrawn) ==> !Selects(s, r))
  {
    InitInv(s0);
    RunKeepsInv(s0, before);
    var m := Exec(s0, before);
    FenceSurvivesRun(m, after, r);
    FencedNeverReselected(Exec(m, after), a, r);
    if At(m.db, r, Stage.Withdrawn) {
      WithdrawnStays(m, after, r);
      WithdrawnNotSelected(Exec(m, after), r);
    }
  }

  lemma WithdrawnStays(m: Sys, after: seq<Action>, r: Req)
    requires Inv(m) && ValidRun(m, after) && At(m.db, r, Stage.Withdrawn)
    ensures At(Exec(m, after).db, r, Stage.Withdrawn)
  {
    RunKeepsInv(m, after);
    WithdrawnKept(m.db, Exec(m, after).db, r);
  }

  // ------------------------------------------------------- no dangling traffic

  /** The selector does not lead to a zero-replica tombstone. */
  predicate Routable(s: Sys, g: Selector) {
    g.Inactive? || RunningAt(s, g)
  }

  /** In every reachable state the generation the Service selects, and the predecessor saved by a
      pending request, is running and no tombstone for it is even in flight. */
  lemma NoDanglingTraffic(s0: Sys, acts: seq<Action>)
    requires Init(s0) && ValidRun(s0, acts)
    ensures var s := Exec(s0, acts);
            && (s.svc.Some? ==> Routable(s, s.svc.value.target.sel))
            && (s.svc.Some? && !s.svc.value.target.sel.Inactive? ==>
                  Retire(s.svc.value.target.sel) !in s.wwrites)
            && (forall r :: Pend(s.db, r) && r in s.db.checkpoints ==>
                  Routable(s, s.db.checkpoints[r].intent.pred.sel))
  {
    InitInv(s0);
    RunKeepsInv(s0, acts);
    var s := Exec(s0, acts);
    forall r | Pend(s.db, r) && r in s.db.checkpoints
      ensures Routable(s, s.db.checkpoints[r].intent.pred.sel)
    {
      assert IntentOK(s, r);
    }
  }

  /** A tombstone is for ever: no late create-only writer brings the generation back. */
  lemma {:induction false} TombstoneIsForever(s: Sys, acts: seq<Action>, g: Selector)
    requires ValidRun(s, acts) && g in s.workloads && s.workloads[g].Retired?
    ensures var t := Exec(s, acts); g in t.workloads && t.workloads[g].Retired?
    decreases |acts|
  {
    if acts != [] {
      TombstoneIsForever(Next(s, acts[0]), acts[1..], g);
    }
  }

  // --------------------------------------------------------- committed receipts

  /** A request ends only in the commit of the operation that holds the lock for it. */
  lemma OnlyCommitEnds(s: Sys, a: Action, r: Req)
    requires Inv(s) && Enabled(s, a) && Pend(s.db, r) && !Pend(Next(s, a).db, r)
    ensures a == Commit && s.pc.r == r && Ended(Next(s, a).db, r, s.pc.o)
  {
    if a == Commit {
      CommitEnds(s, r);
    } else if TouchesDb(a) {
      OthersEndNothing(s, a, r);
    } else {
      DbUntouched(s, a);
    }
  }

  lemma CommitEnds(s: Sys, r: Req)
    requires Enabled(s, Commit) && Pend(s.db, r) && !Pend(Next(s, Commit).db, r)
    ensures s.pc.r == r && Ended(Next(s, Commit).db, r, s.pc.o)
  {
  }

  lemma OthersEndNothing(s: Sys, a: Action, r: Req)
    requires Enabled(s, a) && TouchesDb(a) && a != Commit && Pend(s.db, r)
    ensures Pend(Next(s, a).db, r)
  {
  }

  /** Applied is committed only while the Service sits at the recorded gate and selects the running
      candidate; withdrawn only while it sits at the recovery gate on the saved predecessor, with
      the candidate tombstoned and drained. The resourceVersion of the recovery gate is exact
      unless the API server renumbers updates that change nothing. */
  lemma ReceiptsAgreeWithTraffic(s0: Sys, acts: seq<Action>, a: Action, r: Req)
    requires Init(s0) && ValidRun(s0, acts) && Enabled(Exec(s0, acts), a)
    requires Pend(Exec(s0, acts).db, r) && !Pend(Next(Exec(s0, acts), a).db, r)
    ensures
      var s := Exec(s0, acts);
      && r in s.db.checkpoints && s.svc.Some? && s.db.checkpoints[r].saved.Token?
      && (Ended(Next(s, a).db, r, Applied) ==>
            && s.db.checkpoints[r].saved.gate == GateOf(s.svc.value)
            && s.svc.value.target == CandidateTarget(r, s.db.requests[r].cfg)
            && RunningAt(s, Candidate(r)))
      && (Ended(Next(s, a).db, r, Outcome.Withdrawn) ==>
            && s.svc.value.op == ByRecovery(r)
            && s.svc.value.target == s.db.checkpoints[r].intent.pred
            && Routable(s, s.svc.value.target.sel)
            && DrainedAt(s, Candidate(r))
            && (!s.env.bumps ==> s.db.checkpoints[r].saved.gate == GateOf(s.svc.value)))
  {
    InitInv(s0);
    RunKeepsInv(s0, acts);
    var s := Exec(s0, acts);
    OnlyCommitEnds(s, a, r);
    if s.pc.o.Applied? {
      AppliedAgrees(s, r);
    } else {
      WithdrawnAgrees(s, r);
    }
  }

  lemma AppliedAgrees(s: Sys, r: Req)
    requires DbInv(s.db) && SvcInv(s) && PendInv(s) && Going(s.db, r, Activated)
    ensures s.svc.Some? && s.db.checkpoints[r].saved == Token(GateOf(s.svc.value))
    ensures s.svc.value.target == CandidateTarget(r, s.db.requests[r].cfg) && RunningAt(s, Candidate(r))
  {
    assert Tracks(s.env, r, s.db.checkpoints[r], s.svc.value) && RequestOK(s.db, r);
  }

  lemma WithdrawnAgrees(s: Sys, r: Req)
    requires SvcInv(s) && PendInv(s) && Leaving(s.db, r, Stage.Withdrawn)
    ensures s.svc.Some? && s.svc.value.op == ByRecovery(r) && s.db.checkpoints[r].saved.Token?
    ensures s.svc.value.target == s.db.checkpoints[r].intent.pred && Routable(s, s.svc.value.target.sel)
    ensures !s.env.bumps ==> s.db.checkpoints[r].saved.gate == GateOf(s.svc.value)
  {
    assert Tracks(s.env, r, s.db.checkpoints[r], s.svc.value);
  }

  // ------------------------------------------------------------------- database

  /** In every reachable state: at most one request of the application is pending; a bound request
      is pending, applied or withdrawn exactly when its deployment is pending, healthy or failed;
      and while it is pending the application row still is the saved predecessor, or invisible. */
  lemma DatabaseAgrees(s0: Sys, acts: seq<Action>, r: Req)
    requires Init(s0) && ValidRun(s0, acts) && r in Exec(s0, acts).db.requests
    ensures
      var d := Exec(s0, acts).db;
      && (Pend(d, r) ==> forall q :: Pend(d, q) ==> q == r)
      && d.row.Some? && r in d.bindings && d.bindings[r].depId in d.deployments
      && d.deployments[d.bindings[r].depId].state == d.requests[r].state
      && (Pend(d, r) ==> if d.requests[r].previous.Some? then d.row == d.requests[r].previous else d.row.value.deleted)
  {
    InitInv(s0);
    RunKeepsInv(s0, acts);
    assert BoundOK(Exec(s0, acts).db, r) && RequestOK(Exec(s0, acts).db, r);
  }

  /** Once a withdrawal row exists, no later run of submit, advance or complete applies the request. */
  lemma WithdrawalIsIrrevocable(s0: Sys, before: seq<Action>, after: seq<Action>, r: Req)
    requires Init(s0) && ValidRun(s0, before) && r in Exec(s0, before).db.withdrawals
    requires ValidRun(Exec(s0, before), after)
    ensures !Ended(Exec(Exec(s0, before), after).db, r, Applied)
  {
    InitInv(s0);
    RunKeepsInv(s0, before);
    RunKeepsInv(Exec(s0, before), after);
    var d := Exec(Exec(s0, before), after).db;
    if r in d.requests {
      assert RequestOK(d, r);
    }
  }

  /** Over any stretch of a run the intent never changes, the stage never falls, a terminal state and
      its reply never change, and the stored reply answers every later completion call with the same
      outcome while the other outcome is refused. */
  lemma LifeIsOneWay(s0: Sys, before: seq<Action>, after: seq<Action>, r: Req,
                     o: Outcome, o2: Outcome, expected: SavedGate)
    requires Init(s0) && ValidRun(s0, before) && ValidRun(Exec(s0, before), after)
    ensures
      var d, e := Exec(s0, before).db, Exec(Exec(s0, before), after).db;
      && (r in d.checkpoints ==>
            && r in e.checkpoints && e.checkpoints[r].intent == d.checkpoints[r].intent
            && Rank(d.checkpoints[r].stage) <= Rank(e.checkpoints[r].stage))
      && (Ended(d, r, o) ==>
            && r in e.requests && e.requests[r] == d.requests[r] && d.requests[r].reply.Some?
            && FinalizeTx(e, r, o2, expected) ==
                 if o2 == o then Some((e, d.requests[r].reply.value)) else None)
  {
    InitInv(s0);
    RunKeepsInv(s0, before);
    RunKeepsInv(Exec(s0, before), after);
    var d, e := Exec(s0, before).db, Exec(Exec(s0, before), after).db;
    if r in d.checkpoints {
      assert CheckpointOnward(d.checkpoints[r], e.checkpoints[r]);
    }
    if Ended(d, r, o) {
      ReplyIsFinal(d, e, r, o, expected, o2);
      assert RequestOnward(d.requests[r], e.requests[r]);
    }
  }
}
