/** The inductive invariant of the candidate protocol. */
module Invariant {
  import opened Types
  import opened Store
  import opened Machine

  /** The workload runs and no tombstone for it has even been dispatched. */
  predicate Up(s: Sys, g: Selector) {
    RunningAt(s, g) && Retire(g) !in s.wwrites
  }

  /** Traffic sent to this selector reaches a workload that nobody may retire, or nothing at all. */
  predicate Serving(s: Sys, g: Selector) {
    match g
    case Inactive(_) => true
    case Legacy => Up(s, g)
    case Candidate(r) => Up(s, g) && r in s.db.checkpoints && !At(s.db, r, Stage.Withdrawn)
  }

  // ---------------------------------------------------------------- Service

  /** What the operation annotation says about the rows of the operation that wrote it. */
  predicate OpOK(d: AppData, v: Service) {
    match v.op
    case Unset => !v.target.sel.Candidate?
    case ByRequest(r) =>
      && r in d.checkpoints && r in d.requests
      && (Pend(d, r) || (Ended(d, r, Applied) && v.target == CandidateTarget(r, d.requests[r].cfg)
                         && d.checkpoints[r].saved == Token(GateOf(v))))
    case ByRecovery(r) =>
      At(d, r, Recovering) || (At(d, r, Stage.Withdrawn) && v.target == d.checkpoints[r].intent.pred)
    case ByBootstrap(_) => v.target.sel.Inactive?
    case ByDeletion(_) => v.target.sel.Inactive? && v.deleting.Some?
  }

  ghost predicate SvcInv(s: Sys) {
    s.svc.Some? ==>
      && s.svc.value.rv < s.nextRv
      && s.svc.value.uid < s.nextUid
      && Serving(s, s.svc.value.target.sel)
      && OpOK(s.db, s.svc.value)
  }

  // ------------------------------------------------------- pending requests

  /** The Service still is as the intent captured it, except perhaps for its resourceVersion. */
  predicate AtStart(i: Intent, v: Service) {
    v.op == i.gate.op && v.target == i.pred
  }

  /** A deletion mark landed after the intent was captured. */
  predicate Hijacked(i: Intent, v: Service) {
    v.op.ByDeletion? && !i.gate.op.ByDeletion?
  }

  predicate EitherTarget(r: Req, c: Checkpoint, v: Service) {
    v.target == c.intent.pred || v.target == CandidateTarget(r, c.intent.cfg)
  }

  /** How the Service can look at each durable stage of a pending request. */
  predicate Tracks(env: Env, r: Req, c: Checkpoint, v: Service) {
    && v.uid == c.intent.gate.uid
    && match c.stage
       case Prepared =>
         AtStart(c.intent, v) || Hijacked(c.intent, v) || (v.op == ByRequest(r) && v.target == c.intent.pred)
       case Fenced =>
         && v.op == ByRequest(r) && c.saved.Token?
         && ((c.saved.gate == GateOf(v) && v.target == c.intent.pred)
             || (v.rv > c.saved.gate.rv && v.target == CandidateTarget(r, c.intent.cfg)))
       case Activated =>
         v.op == ByRequest(r) && c.saved == Token(GateOf(v)) && v.target == CandidateTarget(r, c.intent.cfg)
       case Recovering =>
         && c.saved == RecoveryId(r)
         && (AtStart(c.intent, v) || Hijacked(c.intent, v)
             || ((v.op == ByRequest(r) || v.op == ByRecovery(r)) && EitherTarget(r, c, v)))
       case Withdrawn =>
         && v.op == ByRecovery(r) && v.target == c.intent.pred && c.saved.Token?
         && c.saved.gate.uid == v.uid && c.saved.gate.op == v.op
         && (!env.bumps ==> c.saved.gate == GateOf(v))
  }

  ghost predicate PendInv(s: Sys) {
    forall r :: Pend(s.db, r) && r in s.db.checkpoints ==>
      s.svc.Some? && Tracks(s.env, r, s.db.checkpoints[r], s.svc.value)
  }

  // ---------------------------------------------------------------- intents

  predicate IntentOK(s: Sys, r: Req)
    requires r in s.db.checkpoints
  {
    var c := s.db.checkpoints[r];
    && c.intent.gate.rv < s.nextRv
    && (c.saved.Token? ==> c.saved.gate.rv < s.nextRv)
    && c.intent.gate.op != ByRequest(r) && c.intent.gate.op != ByRecovery(r)
    && c.intent.pred.sel != Candidate(r)
    && (Pend(s.db, r) ==> Serving(s, c.intent.pred.sel))
    && (Hits(s.svc, c.intent.gate.rv) ==>
          GateOf(s.svc.value) == c.intent.gate && s.svc.value.target == c.intent.pred)
  }

  ghost predicate IntentInv(s: Sys) {
    forall r :: r in s.db.checkpoints ==> IntentOK(s, r)
  }

  // ------------------------------------------------------- in-flight writes

  /** What must be true for a change that would land on the current Service. */
  ghost predicate ChangeOK(s: Sys, v: Service, c: Change) {
    var db := s.db;
    match c
    case Fence(op) =>
      (match op
       case ByRequest(r) =>
         Pend(db, r) && r in db.checkpoints && db.checkpoints[r].intent.gate.rv == v.rv
         && (At(db, r, Prepared) || At(db, r, Recovering))
       case ByRecovery(r) =>
         && Pend(db, r) && At(db, r, Recovering) && v.op != ByRecovery(r)
         && (AtStart(db.checkpoints[r].intent, v) || v.op == ByRequest(r))
       case _ => false)
    case Retarget(t) =>
      (match v.op
       case ByRequest(r) =>
         && Pend(db, r) && (At(db, r, Fenced) || At(db, r, Recovering))
         && t == CandidateTarget(r, db.checkpoints[r].intent.cfg)
         && v.target == db.checkpoints[r].intent.pred
         && Up(s, Candidate(r))
       case ByRecovery(r) =>
         (At(db, r, Recovering) || At(db, r, Stage.Withdrawn)) && t == db.checkpoints[r].intent.pred
       case _ => false)
    case Rebind(r, t) =>
      && Pend(db, r) && db.requests[r].previous.None? && r !in db.checkpoints && t.sel.Inactive?
      && v.op.ByRecovery? && v.target.sel != Inactive(ByRequest(r))
    case Mark(_, t) =>
      && t.sel.Inactive? && v.deleting.None?
      && (forall r :: Pend(db, r) && r in db.checkpoints ==> AtStart(db.checkpoints[r].intent, v))
  }

  ghost predicate RemovalOK(s: Sys, v: Service) {
    && v.deleting.Some? && v.op.ByDeletion?
    && NoPending(s.db) && s.db.row.Some? && s.db.row.value.deleted && AllDrained(s) && LegacyGone(s)
  }

  ghost predicate WriteOK(s: Sys, w: Write) {
    match w
    case Update(rv, c) => rv < s.nextRv && (Hits(s.svc, rv) ==> ChangeOK(s, s.svc.value, c))
    case Remove(rv) => rv < s.nextRv && (Hits(s.svc, rv) ==> RemovalOK(s, s.svc.value))
    case Bootstrap(_, t) => t.sel.Inactive?
    case Tombstone(_, t) => t.sel.Inactive?
  }

  ghost predicate WritesInv(s: Sys) {
    forall w :: w in s.writes ==> WriteOK(s, w)
  }

  /** A tombstone is dispatched only for a generation whose request no longer needs it. */
  ghost predicate RetireInv(s: Sys) {
    && (forall r :: Retire(Candidate(r)) in s.wwrites ==>
          r in s.db.requests && (Pend(s.db, r) ==> At(s.db, r, Stage.Withdrawn)))
    && Deploy(Legacy) !in s.wwrites
    && (Retire(Legacy) in s.wwrites ==> Legacy in s.workloads)
  }

  // -------------------------------------------------------- program counter

  ghost predicate NoRemovalAhead(s: Sys) {
    forall w :: w in s.writes && w.Remove? ==> !Hits(s.svc, w.rv)
  }

  ghost predicate NoRebindAhead(s: Sys) {
    forall w :: w in s.writes && w.Update? && w.change.Rebind? ==> !Hits(s.svc, w.rv)
  }

  /** A pending request without a checkpoint, on the side its withdrawal row puts it. */
  predicate Unstarted(d: AppData, r: Req, rec: bool) {
    Pend(d, r) && r !in d.checkpoints && (rec <==> r in d.withdrawals)
  }

  predicate Going(d: AppData, r: Req, stage: Stage) {
    Pend(d, r) && At(d, r, stage) && r !in d.withdrawals
  }

  predicate Leaving(d: AppData, r: Req, stage: Stage) {
    Pend(d, r) && At(d, r, stage) && r in d.withdrawals
  }

  ghost predicate SnapOK(s: Sys, r: Req, snap: Service) {
    var svc := s.svc;
    && svc.Some? && snap.rv < s.nextRv && svc.value.uid == snap.uid
    && Serving(s, snap.target.sel)
    && snap.op != ByRequest(r) && snap.op != ByRecovery(r)
    && (Hits(svc, snap.rv) ==> svc.value == snap)
    && ((svc.value.op == snap.op && svc.value.target == snap.target)
        || (svc.value.op.ByDeletion? && svc.value.deleting.Some? && !snap.op.ByDeletion?))
  }

  /** No request is pending and the Service, if any, selects nothing. */
  ghost predicate Quiet(s: Sys) {
    NoPending(s.db) && s.db.row.Some? && (s.svc.Some? ==> s.svc.value.target.sel.Inactive?)
  }

  predicate RestoredTo(s: Sys, r: Req) {
    && s.svc.Some? && s.svc.value.op == ByRecovery(r)
    && r in s.db.checkpoints && s.svc.value.target == s.db.checkpoints[r].intent.pred
  }

  ghost predicate AwaitOK(s: Sys, k: Continuation, w: Write) {
    var db, svc := s.db, s.svc;
    && w in s.writes
    && match k
       case KCreate(r, rec) => Unstarted(db, r, rec) && w.Bootstrap?
       case KRebind(r, rec) => Unstarted(db, r, rec) && w.Update? && w.change.Rebind? && w.change.r == r
       case KFence(r) =>
         Going(db, r, Prepared) && w == Update(db.checkpoints[r].intent.gate.rv, Fence(ByRequest(r)))
       case KActivate(r) =>
         && Going(db, r, Fenced)
         && w.Update? && w.change == Retarget(CandidateTarget(r, db.checkpoints[r].intent.cfg))
       case KRecoveryFence(r) => Leaving(db, r, Recovering) && w.Update? && w.change == Fence(ByRecovery(r))
       case KRestore(r) =>
         && Leaving(db, r, Recovering) && svc.Some? && svc.value.op == ByRecovery(r)
         && w.Update? && w.change == Retarget(db.checkpoints[r].intent.pred)
       case KMark => NoPending(db) && db.row.Some? && IsMark(w)
       case KRemove => w.Remove? && Quiet(s) && AllDrained(s) && LegacyGone(s) && db.row.value.deleted
  }

  ghost predicate GotOK(s: Sys, k: Continuation, gate: Gate) {
    var db, svc := s.db, s.svc;
    match k
    case KFence(r) =>
      && Going(db, r, Prepared)
      && svc.Some? && GateOf(svc.value) == gate && svc.value.op == ByRequest(r)
    case KActivate(r) =>
      && Going(db, r, Fenced)
      && svc.Some? && GateOf(svc.value) == gate && svc.value.op == ByRequest(r)
      && svc.value.target == CandidateTarget(r, db.checkpoints[r].intent.cfg)
    case KRecoveryFence(r) => Leaving(db, r, Recovering) && svc.Some? && svc.value.op == ByRecovery(r)
    case KRestore(r) =>
      && Leaving(db, r, Recovering) && RestoredTo(s, r)
      && gate.rv < s.nextRv && gate.uid == svc.value.uid && gate.op == svc.value.op
      && (!s.env.bumps ==> gate == GateOf(svc.value))
    case _ => false
  }

  ghost predicate PcInv(s: Sys) {
    var db := s.db;
    match s.pc
    case Idle => true
    case Checked(_, _, _, _) => NoRemovalAhead(s)
    case Preparing(r, rec) => Unstarted(db, r, rec)
    case Advancing(r) =>
      Pend(db, r) && r !in db.withdrawals && (r !in db.checkpoints ==> NoRebindAhead(s))
    case Captured(r, snap, rec) => Unstarted(db, r, rec) && NoRebindAhead(s) && SnapOK(s, r, snap)
    case IntentSaved(r) => Going(db, r, Prepared)
    case Await(k, w) => AwaitOK(s, k, w)
    case Got(k, gate) => GotOK(s, k, gate)
    case Deploying(r) => Going(db, r, Fenced)
    case Completing(r) => Going(db, r, Activated)
    case Restoring(r) => Pend(db, r) && r in db.checkpoints && r in db.withdrawals
    case RestoreCapture(r) => Leaving(db, r, Recovering)
    case Retiring(r) => Leaving(db, r, Stage.Withdrawn)
    case Observed(r, o) => Closing(s, r, o)
    case Committing(r, o) => Closing(s, r, o)
    case Reclaiming(r) => Ended(db, r, Applied)
    case Reclaim(r, gate) => Ended(db, r, Applied) && NoPending(db) && gate.op == ByRequest(r)
    case Deleting => NoPending(db) && db.row.Some?
    case DeleteFenced(_) => Quiet(s)
    case DeleteDrained(_) => Quiet(s) && AllDrained(s)
    case DeleteCleaned(_) => Quiet(s) && AllDrained(s) && LegacyGone(s)
    case DeleteRouted(_) => Quiet(s) && AllDrained(s) && LegacyGone(s)
    case DeleteRowed(_) => Quiet(s) && AllDrained(s) && LegacyGone(s) && db.row.value.deleted
  }

  predicate Closing(s: Sys, r: Req, o: Outcome) {
    if o.Applied? then Going(s.db, r, Activated)
    else Leaving(s.db, r, Stage.Withdrawn) && DrainedAt(s, Candidate(r))
  }

  /** Everything except what the lock holder knows. */
  ghost predicate Core(s: Sys) {
    DbInv(s.db) && SvcInv(s) && PendInv(s) && IntentInv(s) && WritesInv(s) && RetireInv(s)
  }

  ghost predicate Inv(s: Sys) {
    Core(s) && PcInv(s)
  }

  lemma CorePc(s: Sys, pc: Pc)
    requires Core(s)
    ensures Core(s.(pc := pc))
  {
    var t := s.(pc := pc);
    forall w | w in t.writes ensures WriteOK(t, w) {
      assert WriteOK(s, w);
    }
    forall r | r in t.db.checkpoints ensures IntentOK(t, r) {
      assert IntentOK(s, r);
    }
  }

  lemma InitInv(s: Sys)
    requires Init(s)
    ensures Inv(s)
  {
  }
}
