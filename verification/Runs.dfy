/** What holds in every state, and over every run, of the candidate deployment protocol, whatever
    crashes, lost replies and delayed Service writes the environment produces. */
module Runs {
  import opened Machine
  import opened Invariant
  import opened Reads
  import opened Life
  import Landing
  import Workloads
  import Transactions

  predicate MovesTraffic(a: Action) {
    a.DispatchFence? || a.DispatchActivate? || a.DispatchRecoveryFence? || a.DispatchRestore?
  }

  lemma DispatchStep(s: Sys, a: Action)
    requires Inv(s) && Enabled(s, a) && SendsWrite(a) && !MovesTraffic(a)
    ensures Inv(Next(s, a))
  {
    match a
    case PrepareCreate => PrepareCreateKeepsInv(s);
    case PrepareRebind(prior) => PrepareRebindKeepsInv(s, prior);
    case DeleteMark => DeleteMarkKeepsInv(s);
    case DeleteCreate => DeleteCreateKeepsInv(s);
    case DeleteFinish => DeleteFinishKeepsInv(s);
  }

  lemma TrafficStep(s: Sys, a: Action)
    requires Inv(s) && Enabled(s, a) && MovesTraffic(a)
    ensures Inv(Next(s, a))
  {
    match a
    case DispatchFence => DispatchFenceKeepsInv(s);
    case DispatchActivate => DispatchActivateKeepsInv(s);
    case DispatchRecoveryFence => DispatchRecoveryFenceKeepsInv(s);
    case DispatchRestore => DispatchRestoreKeepsInv(s);
  }

  lemma TransactionStep(s: Sys, a: Action)
    requires Inv(s) && Enabled(s, a) && TouchesDb(a) && !RecordsGate(a)
    ensures Inv(Next(s, a))
  {
    match a
    case Begin(appId, depId, free) => Transactions.BeginKeepsInv(s, appId, depId, free);
    case StartRecover(r) => Transactions.StartRecoverKeepsInv(s, r);
    case SaveIntent => Transactions.SaveIntentKeepsInv(s);
    case Commit => Transactions.CommitKeepsInv(s);
    case DeleteRoutes => Transactions.DeleteRoutesKeepsInv(s);
    case DeleteRow => Transactions.DeleteRowKeepsInv(s);
  }

  lemma RecordStep(s: Sys, a: Action)
    requires Inv(s) && Enabled(s, a) && RecordsGate(a)
    ensures Inv(Next(s, a))
  {
    match a
    case RecordFenced => Transactions.RecordFencedKeepsInv(s);
    case RecordActivated => Transactions.RecordActivatedKeepsInv(s);
    case RecordRecovering => Transactions.RecordRecoveringKeepsInv(s);
    case RecordWithdrawn => Transactions.RecordWithdrawnKeepsInv(s);
  }

  lemma WorkloadStep(s: Sys, a: Action)
    requires Inv(s) && Enabled(s, a) && SendsWorkload(a)
    ensures Inv(Next(s, a))
  {
    match a
    case DispatchWorkload => Workloads.DeployKeepsInv(s);
    case DispatchRetire => Workloads.DispatchRetireKeepsInv(s);
    case ReclaimRetire(g) => Workloads.ReclaimRetireKeepsInv(s, g);
    case ReclaimLegacy => Workloads.ReclaimLegacyKeepsInv(s);
    case DeleteRetire(g) => Workloads.DeleteRetireKeepsInv(s, g);
    case DeleteRetireLegacy => Workloads.DeleteRetireLegacyKeepsInv(s);
  }

  /** The invariant is inductive. */
  lemma StepKeepsInv(s: Sys, a: Action)
    requires Inv(s) && Enabled(s, a)
    ensures Inv(Next(s, a))
  {
    if OnlyReads(a) {
      ReadKeepsInv(s, a);
    } else if RecordsGate(a) {
      RecordStep(s, a);
    } else if TouchesDb(a) {
      TransactionStep(s, a);
    } else if MovesTraffic(a) {
      TrafficStep(s, a);
    } else if SendsWrite(a) {
      DispatchStep(s, a);
    } else if SendsWorkload(a) {
      WorkloadStep(s, a);
    } else {
      ClusterStep(s, a);
    }
  }

  lemma ClusterStep(s: Sys, a: Action)
    requires Inv(s) && Enabled(s, a) && (a.Land? || a.LandWorkload? || a.Drain?)
    ensures Inv(Next(s, a))
  {
    match a
    case Land(w) => Landing.LandKeepsInv(s, w);
    case LandWorkload(ww) => Workloads.LandWorkloadKeepsInv(s, ww);
    case Drain(g) => Workloads.DrainKeepsInv(s, g);
  }

  /** Every run keeps the invariant and moves the database onward. */
  lemma {:induction false} RunKeepsInv(s: Sys, acts: seq<Action>)
    requires Inv(s) && ValidRun(s, acts)
    ensures Inv(Exec(s, acts)) && Onward(s.db, Exec(s, acts).db)
    decreases |acts|
  {
    if acts != [] {
      var t := Next(s, acts[0]);
      StepKeepsInv(s, acts[0]);
      StepOnward(s, acts[0]);
      RunKeepsInv(t, acts[1..]);
      OnwardTrans(s.db, t.db, Exec(t, acts[1..]).db);
    }
  }
}
