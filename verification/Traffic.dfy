/** Every way in which traffic can move, and what is certain about the predecessor when a withdrawal is
    committed. */
module Traffic {
  import opened Types
  import opened Store
  import opened Machine
  import opened Invariant
  import opened Life
  import opened Runs
  import opened Safety
  import opened Reuse

  /** An activation that can still land keeps the port. */
  ghost predicate PortsKept(s: Sys) {
    forall w :: w in s.writes && w.Update? && w.change.Retarget? && Hits(s.svc, w.rv) && s.svc.value.op.ByRequest? ==>
      w.change.target.port == s.svc.value.target.port
  }

  /** Whoever saw a withdrawal complete saw the predecessor, if there is one, selected by something that runs. */
  predicate SawPredecessor(s: Sys) {
    (s.pc.Observed? || s.pc.Committing?) && s.pc.o.Withdrawn? && s.pc.r in s.db.checkpoints
    && s.pc.r in s.db.requests && s.db.requests[s.pc.r].previous.Some? ==>
      !s.db.checkpoints[s.pc.r].intent.pred.sel.Inactive?
  }

  lemma LandKeepsPorts(s: Sys, w: Write)
    requires WritesInv(s) && PortsKept(s) && Enabled(s, Land(w))
    ensures PortsKept(Next(s, Land(w)))
  {
    var t := Next(s, Land(w));
    forall x | x in t.writes && x.Update? && x.change.Retarget? && Hits(t.svc, x.rv) && t.svc.value.op.ByRequest?
      ensures x.change.target.port == t.svc.value.target.port
    {
      assert WriteOK(s, x);
    }
  }

  lemma NewRetarget(s: Sys, a: Action, w: Write)
    requires PcInv(s) && Enabled(s, a) && SendsWrite(a) && w == Sent(s, a).1 && w.Update? && w.change.Retarget?
    ensures s.svc.Some? && (s.svc.value.op.ByRequest? ==> w.change.target.port == s.svc.value.target.port)
  {
    assert a.DispatchActivate? || a.DispatchRestore?;
  }

  lemma OtherKeepsPorts(s: Sys, a: Action)
    requires PcInv(s) && PortsKept(s) && Enabled(s, a) && !a.Land?
    ensures PortsKept(Next(s, a))
  {
    ServiceUntouched(s, a);
    forall w | w in Next(s, a).writes && w.Update? && w.change.Retarget? && Hits(s.svc, w.rv)
               && s.svc.value.op.ByRequest?
      ensures w.change.target.port == s.svc.value.target.port
    {
      if w !in s.writes {
        assert SendsWrite(a);
        NewRetarget(s, a, w);
      }
    }
  }

  lemma ObservesPredecessor(s: Sys, a: Action)
    requires NoInactive(s) && SawPredecessor(s) && Enabled(s, a) && OnlyReads(a)
    ensures SawPredecessor(Next(s, a))
  {
  }

  lemma OthersSawPredecessor(s: Sys, a: Action)
    requires SawPredecessor(s) && Enabled(s, a) && !OnlyReads(a)
    ensures SawPredecessor(Next(s, a))
  {
    if TouchesDb(a) {
      TransactionPc(s, a);
    } else {
      DbUntouched(s, a);
    }
  }

  ghost predicate TrafficInv(s: Sys) {
    ReuseInv(s) && PortsKept(s) && SawPredecessor(s)
  }

  lemma StepKeepsTraffic(s: Sys, a: Action)
    requires Inv(s) && TrafficInv(s) && Enabled(s, a)
    ensures TrafficInv(Next(s, a))
  {
    StepKeepsReuse(s, a);
    if a.Land? {
      LandKeepsPorts(s, a.w);
    } else {
      OtherKeepsPorts(s, a);
    }
    if OnlyReads(a) {
      ObservesPredecessor(s, a);
    } else {
      OthersSawPredecessor(s, a);
    }
  }

  lemma {:induction false} RunKeepsTraffic(s: Sys, acts: seq<Action>)
    requires Inv(s) && TrafficInv(s) && ValidRun(s, acts)
    ensures Inv(Exec(s, acts)) && TrafficInv(Exec(s, acts))
    decreases |acts|
  {
    if acts != [] {
      StepKeepsInv(s, acts[0]);
      StepKeepsTraffic(s, acts[0]);
      RunKeepsTraffic(Next(s, acts[0]), acts[1..]);
    }
  }

  // ------------------------------------------------------------------ results

  /** The four ways in which an update may move traffic from `v` to `t`. */
  predicate MovesBy(s: Sys, v: Service, t: Service) {
    match v.op
    case ByRequest(r) =>   // activation: same identity, same port, a pending request's running candidate
      || (&& t.op == v.op && Pend(s.db, r) && RunningAt(s, Candidate(r))
          && t.target == Target(Candidate(r), v.target.port))
      || MarkedBy(v, t)
    case ByRecovery(r) =>  // restore: same identity, the saved predecessor; or a rebind to a pending initial request
      || (t.op == v.op && r in s.db.checkpoints && t.target == s.db.checkpoints[r].intent.pred)
      || (&& t.op.ByBootstrap? && Pend(s.db, t.op.r) && s.db.requests[t.op.r].previous.None?
          && t.target.sel.Inactive? && t.initial == Some(t.op.r))
      || MarkedBy(v, t)
    case _ => MarkedBy(v, t)
  }

  /** A deletion mark: its identity, its label, and nothing selected. */
  predicate MarkedBy(v: Service, t: Service) {
    && v.deleting.None? && t.deleting.Some?
    && t.op == ByDeletion(t.deleting.value) && t.target.sel == Inactive(ByDeletion(t.deleting.value))
  }

  lemma UpdateMoves(s: Sys, v: Service, w: Write)
    requires WritesInv(s) && PortsKept(s) && MarksInactive(s) && s.svc == Some(v)
    requires w in s.writes && w.Update? && Hits(s.svc, w.rv) && Changed(v, w.change).target != v.target
    ensures MovesBy(s, v, Changed(v, w.change))
    ensures Changed(v, w.change).uid == v.uid
  {
    assert WriteOK(s, w);
  }

  lemma LandedIs(s: Sys, w: Write)
    requires Enabled(s, Land(w)) && w.Update?
    ensures Next(s, Land(w)).svc.Some? && s.svc.Some?
    ensures var t := Next(s, Land(w)).svc.value; t == Changed(s.svc.value, w.change).(rv := t.rv)
  {
  }

  lemma MovesAnyRv(s: Sys, v: Service, t: Service, rv: nat)
    requires MovesBy(s, v, t)
    ensures MovesBy(s, v, t.(rv := rv))
  {
  }

  /** In every reachable state, a step that moves the traffic of a Service is the landing of an update: the activation
      of a pending request's running candidate under its own identity and on the same port, the restore of a saved
      predecessor under a recovery identity, the rebind of a withdrawn bootstrap, or a deletion mark. */
  lemma TrafficMovesBy(s0: Sys, acts: seq<Action>, a: Action)
    requires Init(s0) && ValidRun(s0, acts) && Enabled(Exec(s0, acts), a)
    requires Exec(s0, acts).svc.Some? && Next(Exec(s0, acts), a).svc.Some?
    requires Next(Exec(s0, acts), a).svc.value.target != Exec(s0, acts).svc.value.target
    ensures var s, t := Exec(s0, acts), Next(Exec(s0, acts), a);
            a.Land? && t.svc.value.uid == s.svc.value.uid && MovesBy(s, s.svc.value, t.svc.value)
  {
    InitInv(s0);
    RunKeepsTraffic(s0, acts);
    StepMovesBy(Exec(s0, acts), a);
  }

  lemma StepMovesBy(s: Sys, a: Action)
    requires WritesInv(s) && PortsKept(s) && MarksInactive(s) && Enabled(s, a) && s.svc.Some? && Next(s, a).svc.Some?
    requires Next(s, a).svc.value.target != s.svc.value.target
    ensures a.Land? && Next(s, a).svc.value.uid == s.svc.value.uid
    ensures MovesBy(s, s.svc.value, Next(s, a).svc.value)
  {
    if !a.Land? {
      ServiceUntouched(s, a);
    } else {
      LandedIs(s, a.w);
      UpdateMoves(s, s.svc.value, a.w);
      MovesAnyRv(s, s.svc.value, Changed(s.svc.value, a.w.change), Next(s, a).svc.value.rv);
    }
  }

  /** When a request over a live application is committed as withdrawn, the predecessor that the Service is back on
      runs. */
  lemma PredecessorRunsAtCommit(s0: Sys, acts: seq<Action>, a: Action, r: Req)
    requires Init(s0) && ValidRun(s0, acts) && Enabled(Exec(s0, acts), a)
    requires Pend(Exec(s0, acts).db, r) && Exec(s0, acts).db.requests[r].previous.Some?
    requires Ended(Next(Exec(s0, acts), a).db, r, Outcome.Withdrawn)
    ensures var s := Exec(s0, acts); s.svc.Some? && RunningAt(s, s.svc.value.target.sel)
  {
    InitInv(s0);
    RunKeepsTraffic(s0, acts);
    StepPredecessorRuns(Exec(s0, acts), a, r);
  }

  lemma StepPredecessorRuns(s: Sys, a: Action, r: Req)
    requires Inv(s) && SawPredecessor(s) && Enabled(s, a) && Pend(s.db, r) && s.db.requests[r].previous.Some?
    requires Ended(Next(s, a).db, r, Outcome.Withdrawn)
    ensures s.svc.Some? && RunningAt(s, s.svc.value.target.sel)
  {
    OnlyCommitEnds(s, a, r);
    CommittingWithdrawn(s, r);
    WithdrawnAgrees(s, r);
    SawRunning(s, r);
  }

  lemma CommittingWithdrawn(s: Sys, r: Req)
    requires PcInv(s) && Enabled(s, Commit) && s.pc.r == r && Pend(s.db, r)
    requires Ended(Next(s, Commit).db, r, Outcome.Withdrawn)
    ensures s.pc == Committing(r, Outcome.Withdrawn) && Leaving(s.db, r, Stage.Withdrawn)
  {
  }

  lemma SawRunning(s: Sys, r: Req)
    requires SvcInv(s) && SawPredecessor(s) && s.pc == Committing(r, Outcome.Withdrawn) && s.svc.Some?
    requires Pend(s.db, r) && r in s.db.checkpoints && s.db.requests[r].previous.Some?
    requires s.svc.value.target == s.db.checkpoints[r].intent.pred
    ensures RunningAt(s, s.svc.value.target.sel)
  {
  }
}
