/** The candidate deployment protocol of one application as a state machine.

    One step is one database transaction, one Kubernetes read, the dispatch of one Kubernetes
    write, or the landing of a dispatched write. The operation that holds the application's
    mutation lock is the program counter `pc`; every database row of the application is read
    and written only by that operation. A write that has been dispatched stays in `writes`
    for ever and may land at any later moment at which its resourceVersion still matches,
    whether or not its caller is still waiting: that covers lost replies, crashes and
    delayed requests. `Abort` is a crash, a timeout or an early return. */
module Machine {
  import opened Types
  import opened Store

  /** A change of the stored Service made by one UPDATE. The request carries the whole object
      read at its resourceVersion, so landing applies the change to that same object. */
  datatype Change =
    | Fence(op: Op)
    | Retarget(target: Target)
    | Rebind(r: Req, target: Target)
    | Mark(appId: nat, target: Target)

  datatype Write =
    | Update(rv: nat, change: Change)
    | Remove(rv: nat)
    | Bootstrap(r: Req, initialTarget: Target)
    | Tombstone(appId: nat, deletionTarget: Target)

  /** A Deployment: running, or a zero-replica tombstone whose pods may have drained. */
  datatype Workload = Running | Retired(drained: bool)

  type Workloads = map<Selector, Workload>

  datatype WorkloadWrite = Deploy(g: Selector) | Retire(g: Selector)

  /** Two properties of the environment. `lateMarks`: the deletion mark of a DeleteApp call may
      land after that call gave up. `bumps`: the API server gives an update that changes
      nothing a new resourceVersion. */
  datatype Env = Env(lateMarks: bool, bumps: bool)

  /** What the lock holder does with the reply to its dispatched Service write. */
  datatype Continuation =
    | KCreate(r: Req, rec: bool)
    | KRebind(r: Req, rec: bool)
    | KFence(r: Req)
    | KActivate(r: Req)
    | KRecoveryFence(r: Req)
    | KRestore(r: Req)
    | KMark
    | KRemove

  datatype Pc =
    | Idle
    | Checked(r: Req, cfg: Config, report: bool, withdraw: bool)
    | Preparing(r: Req, rec: bool)
    | Advancing(r: Req)
    | Captured(r: Req, snap: Service, rec: bool)
    | IntentSaved(r: Req)
    | Await(k: Continuation, w: Write)
    | Got(k: Continuation, gate: Gate)
    | Deploying(r: Req)
    | Completing(r: Req)
    | Restoring(r: Req)
    | RestoreCapture(r: Req)
    | Retiring(r: Req)
    | Observed(r: Req, o: Outcome)
    | Committing(r: Req, o: Outcome)
    | Reclaiming(r: Req)
    | Reclaim(r: Req, gate: Gate)
    | Deleting
    | DeleteFenced(gate: Gate)
    | DeleteDrained(gate: Gate)
    | DeleteCleaned(gate: Gate)
    | DeleteRouted(gate: Gate)
    | DeleteRowed(gate: Gate)

  datatype Sys = Sys(
    env: Env,
    db: AppData,
    svc: Option<Service>,
    nextRv: nat,
    nextUid: nat,
    writes: set<Write>,
    workloads: Workloads,
    wwrites: set<WorkloadWrite>,
    pc: Pc)

  datatype Action =
    | StartDeploy(r: Req, cfg: Config, report: bool)
    | StartWithdraw(r: Req, cfg: Config)
    | Begin(appId: nat, depId: nat, free: bool)
    | StartAdvance(r: Req)
    | StartRecover(r: Req)
    | PrepareCreate
    | PrepareRebind(prior: Req)
    | PrepareReady
    | AdvanceCapture
    | AdvanceResume
    | SaveIntent
    | DispatchFence
    | RecordFenced
    | DispatchWorkload
    | DispatchActivate
    | RecordActivated
    | ObserveApplied
    | RecordRecovering
    | DispatchRecoveryFence
    | DispatchRestore
    | SkipRestore
    | RecordWithdrawn
    | DispatchRetire
    | ObserveWithdrawn
    | Recheck
    | Commit
    | ReclaimStart
    | ReclaimRetire(g: Req)
    | ReclaimLegacy
    | StartDelete
    | DeleteMark
    | DeleteCreate
    | DeleteResume
    | DeleteRetire(g: Req)
    | DeleteDrain
    | DeleteRetireLegacy
    | DeleteClean
    | DeleteRoutes
    | DeleteRow
    | DeleteFinish
    | Land(w: Write)
    | LandWorkload(ww: WorkloadWrite)
    | Drain(sel: Selector)
    | Abort

  // ---------------------------------------------------------------- landing

  function Changed(v: Service, c: Change): Service {
    match c
    case Fence(op) => v.(op := op)
    case Retarget(t) => v.(target := t)
    case Rebind(r, t) => v.(op := ByBootstrap(r), target := t, initial := Some(r))
    case Mark(id, t) => v.(op := ByDeletion(id), target := t, deleting := Some(id))
  }

  predicate IsMark(w: Write) {
    w.Tombstone? || (w.Update? && w.change.Mark?)
  }

  /** An update or delete lands exactly on the resourceVersion it was read at. */
  predicate Hits(svc: Option<Service>, rv: nat) {
    svc.Some? && svc.value.rv == rv
  }

  predicate CanLand(s: Sys, w: Write) {
    && (match w
        case Update(rv, _) => Hits(s.svc, rv)
        case Remove(rv) => Hits(s.svc, rv)
        case Bootstrap(_, _) => s.svc.None?
        case Tombstone(_, _) => s.svc.None?)
    && (IsMark(w) && !s.env.lateMarks ==> s.pc == Await(KMark, w))
  }

  /** The Service after `w` lands. */
  function LandedService(s: Sys, w: Write): Option<Service>
    requires CanLand(s, w)
  {
    match w
    case Update(_, c) =>
      var v := Changed(s.svc.value, c);
      if v == s.svc.value && !s.env.bumps then s.svc else Some(v.(rv := s.nextRv))
    case Remove(_) => None
    case Bootstrap(r, t) => Some(Service(s.nextUid, s.nextRv, Unset, t, Some(r), None))
    case Tombstone(id, t) => Some(Service(s.nextUid, s.nextRv, ByDeletion(id), t, None, Some(id)))
  }

  /** The reply reaches the lock holder if it is still waiting for exactly this write. */
  function Received(pc: Pc, w: Write, svc: Option<Service>): Pc {
    if pc.Await? && pc.w == w then
      match pc.k
      case KCreate(r, rec) => Preparing(r, rec)
      case KRebind(r, rec) => if svc.None? then Idle else if rec then Captured(r, svc.value, true) else Advancing(r)
      case KMark => if svc.None? then Idle else DeleteFenced(GateOf(svc.value))
      case KRemove => Idle
      case k => if svc.None? then Idle else Got(k, GateOf(svc.value))
    else pc
  }

  function DispatchWrite(s: Sys, k: Continuation, w: Write): Sys {
    s.(writes := s.writes + {w}, pc := Await(k, w))
  }

  // ---------------------------------------------------------------- queries

  predicate Runs(ws: Workloads, g: Selector) {
    g in ws && ws[g].Running?
  }

  predicate Drained(ws: Workloads, g: Selector) {
    g in ws && ws[g] == Retired(true)
  }

  predicate RunningAt(s: Sys, g: Selector) {
    Runs(s.workloads, g)
  }

  predicate DrainedAt(s: Sys, g: Selector) {
    Drained(s.workloads, g)
  }

  predicate AllDrained(s: Sys) {
    forall r :: r in s.db.bindings ==> DrainedAt(s, Candidate(r))
  }

  predicate LegacyGone(s: Sys) {
    Legacy in s.workloads ==> DrainedAt(s, Legacy)
  }

  /** CheckCandidateDeletion. */
  predicate NotDeleting(svc: Option<Service>) {
    svc.Some? ==> svc.value.deleting.None?
  }

  /** The Service carries the complete, unmodified marker of this application's deletion. */
  predicate MarkedFor(v: Service, row: AppRow) {
    v.deleting == Some(row.id) && v.op == ByDeletion(row.id) && v.target.sel == Inactive(ByDeletion(row.id))
  }

  predicate AtSavedGate(s: Sys, r: Req) {
    s.svc.Some? && r in s.db.checkpoints && s.db.checkpoints[r].saved == Token(GateOf(s.svc.value))
  }

  /** All conditions under which a withdrawn bootstrap may be rebound to request `r`. */
  predicate Reusable(s: Sys, r: Req, prior: Req) {
    var db, svc := s.db, s.svc;
    && svc.Some? && svc.value.initial == Some(prior) && prior != r
    && Ended(db, prior, Outcome.Withdrawn) && db.requests[prior].previous.None?
    && prior in db.bindings && r in db.bindings && db.bindings[prior].appId == db.bindings[r].appId
    && db.row.Some? && db.row.value.deleted
    && At(db, prior, Stage.Withdrawn)
    && db.checkpoints[prior].intent.pred == InactiveTarget(prior, db.requests[prior].cfg)
    && AtSavedGate(s, prior) && svc.value.op == ByRecovery(prior)
    && svc.value.uid == db.checkpoints[prior].intent.gate.uid
    && svc.value.target == db.checkpoints[prior].intent.pred
    && DrainedAt(s, Candidate(prior))
  }

  /** Where the driver goes once the request row has been read. */
  function AfterBegin(d: AppData, r: Req, withdraw: bool): Pc {
    if !Pend(d, r) then (if !withdraw && Ended(d, r, Applied) then Reclaiming(r) else Idle)
    else if withdraw then RecoverFrom(d, r)
    else if r in d.withdrawals then Idle
    else if r in d.checkpoints then Advancing(r)
    else Preparing(r, false)
  }

  function RecoverFrom(d: AppData, r: Req): Pc {
    if r in d.checkpoints then Restoring(r) else Preparing(r, true)
  }

  function AdvanceFrom(d: AppData, r: Req): Pc {
    if Ended(d, r, Applied) then Reclaiming(r)
    else if !Pend(d, r) || r in d.withdrawals then Idle
    else if r !in d.checkpoints then Preparing(r, false)
    else if At(d, r, Fenced) || At(d, r, Activated) then Advancing(r)
    else Idle
  }

  /** Commit a gate transition, or give up if the transaction is refused. */
  function Recorded(s: Sys, r: Req, expected: Stage, next: Stage, gate: SavedGate, pc: Pc): (AppData, Pc) {
    match RecordGateTx(s.db, r, expected, next, gate)
    case None => (s.db, Idle)
    case Some(d) => (d, pc)
  }

  // ------------------------------------------------------------------ steps

  predicate Enabled(s: Sys, a: Action) {
    var pc, db, svc := s.pc, s.db, s.svc;
    match a
    case StartDeploy(_, _, _) => pc.Idle? && NotDeleting(svc)
    case StartWithdraw(_, _) => pc.Idle? && NotDeleting(svc)
    case Begin(_, _, _) => pc.Checked?
    case StartAdvance(_) => pc.Idle?
    case StartRecover(_) => pc.Idle?
    case PrepareCreate =>
      pc.Preparing? && svc.None? && Pend(db, pc.r) && db.requests[pc.r].previous.None?
    case PrepareRebind(prior) =>
      && pc.Preparing? && Pend(db, pc.r) && db.requests[pc.r].previous.None?
      && Reusable(s, pc.r, prior) && svc.value.target != InactiveTarget(pc.r, db.requests[pc.r].cfg)
    case PrepareReady =>
      && pc.Preparing? && svc.Some? && Pend(db, pc.r)
      && (var q := db.requests[pc.r];
          if q.previous.None? then svc.value.target == InactiveTarget(pc.r, q.cfg)
          else pc.rec ==> RunningAt(s, svc.value.target.sel)
                            && svc.value.target.port == q.previous.value.desired.port)
    case AdvanceCapture => pc.Advancing? && pc.r !in db.checkpoints && svc.Some?
    case AdvanceResume => pc.Advancing? && (At(db, pc.r, Fenced) || At(db, pc.r, Activated))
    case SaveIntent => pc.Captured? && Pend(db, pc.r)
    case DispatchFence =>
      && pc.IntentSaved? && svc.Some? && pc.r in db.checkpoints
      && db.checkpoints[pc.r].intent.gate == GateOf(svc.value) && svc.value.op != ByRequest(pc.r)
    case RecordFenced => pc.Got? && pc.k.KFence?
    case DispatchWorkload => pc.Deploying? && Candidate(pc.r) !in s.workloads
    case DispatchActivate =>
      && pc.Deploying? && Pend(db, pc.r) && AtSavedGate(s, pc.r)
      && RunningAt(s, Candidate(pc.r))
      && svc.value.op == ByRequest(pc.r) && svc.value.target.port == db.requests[pc.r].cfg.port
    case RecordActivated => pc.Got? && pc.k.KActivate?
    case ObserveApplied =>
      && pc.Completing? && At(db, pc.r, Activated) && AtSavedGate(s, pc.r)
      && svc.value.target.sel == Candidate(pc.r) && RunningAt(s, Candidate(pc.r))
    case RecordRecovering =>
      && pc.Restoring? && Pend(db, pc.r) && pc.r in db.checkpoints
      && (db.requests[pc.r].previous.None? ==>
            db.checkpoints[pc.r].intent.pred == InactiveTarget(pc.r, db.requests[pc.r].cfg))
    case DispatchRecoveryFence =>
      && pc.RestoreCapture? && svc.Some? && pc.r in db.checkpoints
      && svc.value.uid == db.checkpoints[pc.r].intent.gate.uid
      && svc.value.op != ByRecovery(pc.r)
      && (svc.value.op == db.checkpoints[pc.r].intent.gate.op || svc.value.op == ByRequest(pc.r))
    case DispatchRestore =>
      && svc.Some?
      && if pc.RestoreCapture? then
           && pc.r in db.checkpoints && svc.value.op == ByRecovery(pc.r)
           && svc.value.uid == db.checkpoints[pc.r].intent.gate.uid
           && svc.value.target != db.checkpoints[pc.r].intent.pred
         else
           pc.Got? && pc.k.KRecoveryFence? && pc.k.r in db.checkpoints && pc.gate == GateOf(svc.value)
    case SkipRestore =>
      && pc.RestoreCapture? && svc.Some? && pc.r in db.checkpoints
      && svc.value.op == ByRecovery(pc.r)
      && svc.value.uid == db.checkpoints[pc.r].intent.gate.uid
      && svc.value.target == db.checkpoints[pc.r].intent.pred
    case RecordWithdrawn => pc.Got? && pc.k.KRestore?
    case DispatchRetire => pc.Retiring?
    case ObserveWithdrawn =>
      && pc.Retiring? && Pend(db, pc.r) && At(db, pc.r, Stage.Withdrawn) && AtSavedGate(s, pc.r)
      && DrainedAt(s, Candidate(pc.r))
      && svc.value.target == db.checkpoints[pc.r].intent.pred
      && (db.requests[pc.r].previous.Some? ==> RunningAt(s, svc.value.target.sel))
    case Recheck =>
      && pc.Observed? && Pend(db, pc.r) && AtSavedGate(s, pc.r)
      && svc.value.target == (if pc.o.Applied? then CandidateTarget(pc.r, db.requests[pc.r].cfg)
                                else db.checkpoints[pc.r].intent.pred)
    case Commit => pc.Committing? && pc.r in db.checkpoints
    case ReclaimStart =>
      && pc.Reclaiming? && Ended(db, pc.r, Applied) && !Busy(db)
      && Live(db.row) && db.row.value.desired == db.requests[pc.r].cfg
      && svc.Some? && svc.value.deleting.None? && svc.value.op == ByRequest(pc.r)
      && svc.value.target.sel == Candidate(pc.r) && RunningAt(s, Candidate(pc.r))
    case ReclaimRetire(g) =>
      pc.Reclaim? && g in db.bindings && g != pc.r && svc.Some? && GateOf(svc.value) == pc.gate
    case ReclaimLegacy =>
      && pc.Reclaim? && svc.Some? && GateOf(svc.value) == pc.gate && svc.value.deleting.None?
      && svc.value.target.sel == Candidate(pc.r) && Legacy in s.workloads
    case StartDelete => pc.Idle? && !Busy(db) && db.row.Some? && db.bindings != map[]
    case DeleteMark => pc.Deleting? && db.row.Some? && svc.Some? && svc.value.deleting.None?
    case DeleteCreate => pc.Deleting? && db.row.Some? && db.row.value.deleted && svc.None?
    case DeleteResume =>
      && pc.Deleting? && db.row.Some? && svc.Some? && MarkedFor(svc.value, db.row.value)
      && svc.value.target == DeletionTarget(db.row.value.id, db.row.value.desired)
    case DeleteRetire(g) => pc.DeleteFenced? && g in db.bindings
    case DeleteDrain => pc.DeleteFenced? && AllDrained(s)
    case DeleteRetireLegacy => pc.DeleteDrained? && AtMarkedGate(s, pc.gate) && Legacy in s.workloads
    case DeleteClean =>
      pc.DeleteDrained? && AtMarkedGate(s, pc.gate) && AllDrained(s) && LegacyGone(s)
    case DeleteRoutes => pc.DeleteCleaned?
    case DeleteRow => pc.DeleteRouted?
    case DeleteFinish => pc.DeleteRowed? && AtMarkedGate(s, pc.gate) && AllDrained(s) && LegacyGone(s)
    case Land(w) => w in s.writes && CanLand(s, w)
    case LandWorkload(ww) => ww in s.wwrites && (ww.Deploy? ==> ww.g !in s.workloads)
    case Drain(g) => g in s.workloads && s.workloads[g].Retired?
    case Abort => true
  }

  predicate AtMarkedGate(s: Sys, gate: Gate) {
    s.svc.Some? && GateOf(s.svc.value) == gate && s.db.row.Some? && MarkedFor(s.svc.value, s.db.row.value)
  }

  /** The steps that only read the database and the cluster. */
  predicate OnlyReads(a: Action) {
    match a
    case StartDeploy(_, _, _) => true
    case StartWithdraw(_, _) => true
    case StartAdvance(_) => true
    case PrepareReady => true
    case AdvanceCapture => true
    case AdvanceResume => true
    case ObserveApplied => true
    case SkipRestore => true
    case ObserveWithdrawn => true
    case Recheck => true
    case ReclaimStart => true
    case StartDelete => true
    case DeleteResume => true
    case DeleteDrain => true
    case DeleteClean => true
    case Abort => true
    case _ => false
  }

  function ReadPc(s: Sys, a: Action): Pc
    requires OnlyReads(a) && Enabled(s, a)
  {
    var pc, db, svc := s.pc, s.db, s.svc;
    match a
    case StartDeploy(r, cfg, report) => Checked(r, cfg, report, false)
    case StartWithdraw(r, cfg) => Checked(r, cfg, true, true)
    case StartAdvance(r) => AdvanceFrom(db, r)
    case PrepareReady => if pc.rec then Captured(pc.r, svc.value, true) else Advancing(pc.r)
    case AdvanceCapture => Captured(pc.r, svc.value, false)
    case AdvanceResume => if At(db, pc.r, Fenced) then Deploying(pc.r) else Completing(pc.r)
    case ObserveApplied => Observed(pc.r, Applied)
    case SkipRestore => Got(KRestore(pc.r), GateOf(svc.value))
    case ObserveWithdrawn => Observed(pc.r, Outcome.Withdrawn)
    case Recheck => Committing(pc.r, pc.o)
    case ReclaimStart => Reclaim(pc.r, GateOf(svc.value))
    case StartDelete => Deleting
    case DeleteResume => DeleteFenced(GateOf(svc.value))
    case DeleteDrain => DeleteDrained(pc.gate)
    case DeleteClean => DeleteCleaned(pc.gate)
    case Abort => Idle
  }

  /** The steps that run one database transaction. */
  predicate TouchesDb(a: Action) {
    match a
    case Begin(_, _, _) => true
    case StartRecover(_) => true
    case SaveIntent => true
    case RecordFenced => true
    case RecordActivated => true
    case RecordRecovering => true
    case RecordWithdrawn => true
    case Commit => true
    case DeleteRoutes => true
    case DeleteRow => true
    case _ => false
  }

  function Transact(s: Sys, a: Action): (AppData, Pc)
    requires TouchesDb(a) && Enabled(s, a)
  {
    var pc, db := s.pc, s.db;
    match a
    case Begin(appId, depId, free) =>
      (match BeginTx(db, pc.r, pc.cfg, pc.report, appId, depId, free, pc.withdraw)
       case None => (db, Idle)
       case Some(d) => (d, AfterBegin(d, pc.r, pc.withdraw)))
    case StartRecover(r) =>
      if Pend(db, r)
      then (db.(withdrawals := db.withdrawals + {r}), RecoverFrom(db, r))
      else (db, Idle)
    case SaveIntent =>
      (match SaveIntentTx(db, pc.r, Intent(db.requests[pc.r].cfg, GateOf(pc.snap), pc.snap.target))
       case None => (db, Idle)
       case Some(d) => (d, if pc.rec then Restoring(pc.r) else IntentSaved(pc.r)))
    case RecordFenced => Recorded(s, pc.k.r, Prepared, Fenced, Token(pc.gate), Deploying(pc.k.r))
    case RecordActivated => Recorded(s, pc.k.r, Fenced, Activated, Token(pc.gate), Completing(pc.k.r))
    case RecordRecovering =>
      var stage := db.checkpoints[pc.r].stage;
      if stage == Stage.Withdrawn then (db, Retiring(pc.r))
      else if stage == Recovering then (db, RestoreCapture(pc.r))
      else Recorded(s, pc.r, stage, Recovering, RecoveryId(pc.r), RestoreCapture(pc.r))
    case RecordWithdrawn =>
      Recorded(s, pc.k.r, Recovering, Stage.Withdrawn, Token(pc.gate), Retiring(pc.k.r))
    case Commit =>
      (match FinalizeTx(db, pc.r, pc.o, db.checkpoints[pc.r].saved)
       case None => (db, Idle)
       case Some(result) => (result.0, if pc.o.Applied? then Reclaiming(pc.r) else Idle))
    case DeleteRoutes => (DeleteRoutesTx(db), DeleteRouted(pc.gate))
    case DeleteRow => (MarkDeletedTx(db), DeleteRowed(pc.gate))
  }

  /** The steps that dispatch a Service write and wait for its reply. */
  predicate SendsWrite(a: Action) {
    match a
    case PrepareCreate => true
    case PrepareRebind(_) => true
    case DispatchFence => true
    case DispatchActivate => true
    case DispatchRecoveryFence => true
    case DispatchRestore => true
    case DeleteMark => true
    case DeleteCreate => true
    case DeleteFinish => true
    case _ => false
  }

  function Sent(s: Sys, a: Action): (Continuation, Write)
    requires SendsWrite(a) && Enabled(s, a)
  {
    var pc, db, svc := s.pc, s.db, s.svc;
    match a
    case PrepareCreate =>
      (KCreate(pc.r, pc.rec), Bootstrap(pc.r, InactiveTarget(pc.r, db.requests[pc.r].cfg)))
    case PrepareRebind(_) =>
      (KRebind(pc.r, pc.rec),
       Update(svc.value.rv, Rebind(pc.r, InactiveTarget(pc.r, db.requests[pc.r].cfg))))
    case DispatchFence => (KFence(pc.r), Update(svc.value.rv, Fence(ByRequest(pc.r))))
    case DispatchActivate =>
      (KActivate(pc.r), Update(svc.value.rv, Retarget(CandidateTarget(pc.r, db.requests[pc.r].cfg))))
    case DispatchRecoveryFence => (KRecoveryFence(pc.r), Update(svc.value.rv, Fence(ByRecovery(pc.r))))
    case DispatchRestore =>
      var r := if pc.RestoreCapture? then pc.r else pc.k.r;
      (KRestore(r), Update(svc.value.rv, Retarget(db.checkpoints[r].intent.pred)))
    case DeleteMark =>
      (KMark, Update(svc.value.rv,
                     Mark(db.row.value.id, DeletionTarget(db.row.value.id, db.row.value.desired))))
    case DeleteCreate =>
      (KMark, Tombstone(db.row.value.id, DeletionTarget(db.row.value.id, db.row.value.desired)))
    case DeleteFinish => (KRemove, Remove(svc.value.rv))
  }

  /** The steps that dispatch a Deployment write; its reply is not needed to go on. */
  predicate SendsWorkload(a: Action) {
    match a
    case DispatchWorkload => true
    case DispatchRetire => true
    case ReclaimRetire(_) => true
    case ReclaimLegacy => true
    case DeleteRetire(_) => true
    case DeleteRetireLegacy => true
    case _ => false
  }

  function WorkloadSent(s: Sys, a: Action): WorkloadWrite
    requires SendsWorkload(a) && Enabled(s, a)
  {
    match a
    case DispatchWorkload => Deploy(Candidate(s.pc.r))
    case DispatchRetire => Retire(Candidate(s.pc.r))
    case ReclaimRetire(g) => Retire(Candidate(g))
    case ReclaimLegacy => Retire(Legacy)
    case DeleteRetire(g) => Retire(Candidate(g))
    case DeleteRetireLegacy => Retire(Legacy)
  }

  function LandedWorkloads(s: Sys, ww: WorkloadWrite): Workloads {
    if ww.Deploy? then s.workloads[ww.g := Running]
    else if ww.g in s.workloads && s.workloads[ww.g].Retired? then s.workloads
    else s.workloads[ww.g := Retired(false)]
  }

  function Next(s: Sys, a: Action): Sys
    requires Enabled(s, a)
  {
    if OnlyReads(a) then s.(pc := ReadPc(s, a))
    else if TouchesDb(a) then s.(db := Transact(s, a).0, pc := Transact(s, a).1)
    else if SendsWrite(a) then DispatchWrite(s, Sent(s, a).0, Sent(s, a).1)
    else if SendsWorkload(a) then s.(wwrites := s.wwrites + {WorkloadSent(s, a)})
    else
      match a
      case Land(w) =>
        s.(svc := LandedService(s, w), nextRv := s.nextRv + 1, nextUid := s.nextUid + 1,
           pc := Received(s.pc, w, LandedService(s, w)))
      case LandWorkload(ww) => s.(workloads := LandedWorkloads(s, ww))
      case Drain(g) => s.(workloads := s.workloads[g := Retired(true)])
  }

  // ------------------------------------------------------------------- runs

  /** Nothing of the candidate protocol has happened yet: no application, or a legacy one. */
  ghost predicate Init(s: Sys) {
    && s.db.requests == map[] && s.db.bindings == map[] && s.db.checkpoints == map[] && s.db.withdrawals == {}
    && s.writes == {} && s.wwrites == {} && s.pc == Idle
    && (forall g :: g in s.workloads ==> g == Legacy)
    && (s.svc.Some? ==>
          && s.svc.value.rv < s.nextRv && s.svc.value.uid < s.nextUid
          && s.svc.value.op == Unset && s.svc.value.target.sel == Legacy
          && s.svc.value.initial.None? && s.svc.value.deleting.None?
          && RunningAt(s, Legacy))
  }

  predicate ValidRun(s: Sys, acts: seq<Action>)
    decreases |acts|
  {
    acts == [] || (Enabled(s, acts[0]) && ValidRun(Next(s, acts[0]), acts[1..]))
  }

  function Exec(s: Sys, acts: seq<Action>): Sys
    requires ValidRun(s, acts)
    decreases |acts|
  {
    if acts == [] then s else Exec(Next(s, acts[0]), acts[1..])
  }
}
