/** The other server operations as the server runs them, statement by statement, while nothing else
    interferes: advancing a candidate, reclaiming capacity, and deleting an application. */
module Operations {
  import opened Types
  import opened Store
  import opened Machine
  import opened Repository
  import opened Recovery

  predicate Tombstoned(ws: Workloads, g: Selector) {
    g in ws && ws[g].Retired?
  }

  /** No tombstone of `before` is anything else in `after`. */
  ghost predicate TombstonesKept(before: Workloads, after: Workloads) {
    forall g :: Tombstoned(before, g) ==> g in after && after[g] == before[g]
  }

  /** The Deployments of the application. */
  class WorkloadApi {
    var workloads: Workloads

    constructor (workloads: Workloads)
      ensures this.workloads == workloads
    {
      this.workloads := workloads;
    }

    /** Creates the candidate once; a tombstone in its place is never brought back. */
    method PrepareCandidateDeployment(r: Req) returns (ok: bool)
      modifies this
      ensures ok <==> !old(Tombstoned(workloads, Candidate(r)))
      ensures workloads == if ok then old(workloads)[Candidate(r) := Running] else old(workloads)
    {
      if Candidate(r) !in workloads {
        workloads := workloads[Candidate(r) := Running];
        return true;
      }
      ok := workloads[Candidate(r)].Running?;
      assert ok ==> workloads[Candidate(r) := Running] == workloads;
    }

    /** The pods of all tombstones are gone. */
    method DrainTombstones()
      modifies this
      ensures workloads.Keys == old(workloads).Keys
      ensures forall g :: g in old(workloads) ==>
                workloads[g] == if old(workloads)[g].Retired? then Retired(true) else Running
    {
      workloads := map g | g in workloads :: if workloads[g].Retired? then Retired(true) else Running;
    }

    /** Leaves a zero-replica tombstone, created if need be. */
    method Retire(g: Selector)
      modifies this
      ensures Tombstoned(workloads, g)
      ensures old(Tombstoned(workloads, g)) ==> workloads == old(workloads)
      ensures !old(Tombstoned(workloads, g)) ==> workloads == old(workloads)[g := Retired(false)]
    {
      if g !in workloads || workloads[g].Running? {
        workloads := workloads[g := Retired(false)];
      }
    }
  }

  // ------------------------------------------------------------------ advance

  predicate SavedFor(c: Checkpoint, r: Req) {
    c.saved.Token? && c.saved.gate.uid == c.intent.gate.uid && c.saved.gate.op == ByRequest(r)
  }

  /** When a call can get the candidate activated, from the rows and the cluster it finds. */
  predicate Advanceable(d: AppData, svc: Option<Service>, ws: Workloads, r: Req, cfg: Config, ready: bool) {
    && Pend(d, r) && d.requests[r].cfg == cfg
    && var runs := !Tombstoned(ws, Candidate(r)) && ready && svc.Some? && svc.value.target.port == cfg.port;
       if r !in d.checkpoints then runs && svc.value.op != ByRequest(r)
       else
         && d.checkpoints[r].intent.cfg == cfg && SavedFor(d.checkpoints[r], r)
         && (At(d, r, Activated) || (At(d, r, Fenced) && runs && GateOf(svc.value) == d.checkpoints[r].saved.gate))
  }

  /** Prepares the Deployment, switches traffic at exactly the fenced gate, and records it. */
  method ActivateFenced(repo: CandidateRepository, api: ServiceApi, cluster: WorkloadApi, r: Req, cfg: Config,
                        gate: Gate, ready: bool) returns (activated: Option<Gate>)
    requires Pend(repo.Data(), r) && At(repo.Data(), r, Fenced) && gate.op == ByRequest(r)
    modifies repo`checkpoints, api, cluster
    ensures activated.Some? <==> && !old(Tombstoned(cluster.workloads, Candidate(r))) && ready
                                 && old(api.svc.Some? && GateOf(api.svc.value) == gate)
                                 && old(api.svc.value.target.port) == cfg.port
    ensures activated.None? ==> api.svc == old(api.svc) && repo.checkpoints == old(repo.checkpoints)
    ensures activated.Some? ==>
              && api.svc == Some(old(api.svc.value).(target := CandidateTarget(r, cfg), rv := activated.value.rv))
              && activated == Some(GateOf(api.svc.value)) && Runs(cluster.workloads, Candidate(r))
              && repo.checkpoints == Staged(old(repo.checkpoints), r, Activated, Token(activated.value))
    ensures TombstonesKept(old(cluster.workloads), cluster.workloads)
    ensures cluster.workloads - {Candidate(r)} == old(cluster.workloads) - {Candidate(r)}
    ensures Tombstoned(cluster.workloads, Candidate(r)) ==> old(Tombstoned(cluster.workloads, Candidate(r)))
  {
    var prepared := cluster.PrepareCandidateDeployment(r);
    if !prepared || !ready {
      return None;
    }
    if api.svc.None? || GateOf(api.svc.value) != gate || api.svc.value.target.port != cfg.port {
      return None;
    }
    activated := api.ReplaceActivationTarget(gate, CandidateTarget(r, cfg));
    var recorded := repo.RecordActivationGate(r, Fenced, Activated, Token(activated.value));
  }

  /** Only the checkpoint of `r` may differ. */
  ghost predicate OthersKept(before: map<Req, Checkpoint>, after: map<Req, Checkpoint>, r: Req) {
    && (forall q :: q != r ==> (q in after <==> q in before))
    && (forall q :: q != r && q in before && q in after ==> after[q] == before[q])
  }

  /** Captures, saves the intent, and fences; leaves a prepared checkpoint behind if it cannot fence. */
  method FenceNew(repo: CandidateRepository, api: ServiceApi, r: Req, cfg: Config) returns (fenced: Option<Gate>)
    requires Pend(repo.Data(), r) && r !in repo.checkpoints
    modifies repo`checkpoints, api
    ensures fenced.Some? <==> old(api.svc.Some? && api.svc.value.op != ByRequest(r))
    ensures fenced.None? ==> api.svc == old(api.svc)
    ensures OthersKept(old(repo.checkpoints), repo.checkpoints, r)
    ensures fenced.Some? ==>
              && api.svc == Some(old(api.svc.value).(op := ByRequest(r), rv := fenced.value.rv))
              && fenced == Some(GateOf(api.svc.value)) && r in repo.checkpoints
              && repo.checkpoints[r] == Checkpoint(
                   Fenced, Intent(cfg, old(GateOf(api.svc.value)), old(api.svc.value.target)), Token(fenced.value))
  {
    var found := api.CaptureActivationGate();
    if found.None? {
      return None;
    }
    var saved := repo.SaveActivationIntent(r, Intent(cfg, found.value.0, found.value.1));
    fenced := api.FenceActivationGate(found.value.0, ByRequest(r));
    if fenced.Some? {
      var recorded := repo.RecordActivationGate(r, Prepared, Fenced, Token(fenced.value));
    }
  }

  /** One call: succeeds exactly when the rows and the cluster allow it, and then the checkpoint says
      activated at the returned gate and the Service selects the running candidate there. A checkpoint
      that is prepared, recovering or withdrawn is never advanced. A failure moves no traffic. */
  method AdvanceCandidateOperation(repo: CandidateRepository, api: ServiceApi, cluster: WorkloadApi, r: Req,
                                   cfg: Config, ready: bool) returns (gate: Option<Gate>)
    modifies repo`checkpoints, api, cluster
    ensures gate.Some? <==> old(Advanceable(repo.Data(), api.svc, cluster.workloads, r, cfg, ready))
    ensures gate.Some? ==>
              && At(repo.Data(), r, Activated) && repo.checkpoints[r].saved == Token(gate.value)
              && repo.checkpoints[r].intent.cfg == cfg && gate.value.op == ByRequest(r)
              && gate.value.uid == repo.checkpoints[r].intent.gate.uid
    ensures gate.Some? && !old(At(repo.Data(), r, Activated)) ==>
              && api.svc == Some(old(api.svc.value).(op := ByRequest(r), target := CandidateTarget(r, cfg),
                                                     rv := gate.value.rv))
              && gate == Some(GateOf(api.svc.value)) && Runs(cluster.workloads, Candidate(r))
    ensures old(r in repo.checkpoints && !At(repo.Data(), r, Fenced)) ==>
              && api.svc == old(api.svc) && repo.checkpoints == old(repo.checkpoints)
              && cluster.workloads == old(cluster.workloads)
    ensures gate.None? && old(Pend(repo.Data(), r) && repo.requests[r].cfg == cfg && r !in repo.checkpoints)
            && old(api.svc.Some? && api.svc.value.op != ByRequest(r)) ==>
              && api.svc.Some? && api.svc.value == old(api.svc.value).(op := ByRequest(r), rv := api.svc.value.rv)
              && r in repo.checkpoints
              && repo.checkpoints[r] == Checkpoint(
                   Fenced, Intent(cfg, old(GateOf(api.svc.value)), old(api.svc.value.target)),
                   Token(GateOf(api.svc.value)))
    ensures gate.None? ==> (api.svc.Some? <==> old(api.svc.Some?))
    ensures gate.None? && api.svc.Some? ==> api.svc.value.target == old(api.svc.value.target)
    ensures TombstonesKept(old(cluster.workloads), cluster.workloads)
    ensures cluster.workloads - {Candidate(r)} == old(cluster.workloads) - {Candidate(r)}
    ensures Tombstoned(cluster.workloads, Candidate(r)) ==> old(Tombstoned(cluster.workloads, Candidate(r)))
    ensures OthersKept(old(repo.checkpoints), repo.checkpoints, r)
  {
    gate := None;
    if r !in repo.requests || !repo.requests[r].state.Pending? || repo.requests[r].cfg != cfg {
      return;
    }
    if r !in repo.checkpoints {
      var fenced := FenceNew(repo, api, r, cfg);
      if fenced.Some? {
        gate := ActivateFenced(repo, api, cluster, r, cfg, fenced.value, ready);
      }
      return;
    }
    var c := repo.checkpoints[r];
    if c.intent.cfg != cfg || !SavedFor(c, r) {
      return;
    }
    match c.stage {
      case Activated => gate := Some(c.saved.gate);
      case Fenced => gate := ActivateFenced(repo, api, cluster, r, cfg, c.saved.gate, ready);
      case _ =>
    }
  }

  /** A call that activated the candidate is answered with the same gate again, ready or not, and nothing moves. */
  method AdvanceAgain(repo: CandidateRepository, api: ServiceApi, cluster: WorkloadApi, r: Req, cfg: Config,
                      ready: bool, readyAgain: bool) returns (first: Option<Gate>, again: Option<Gate>)
    modifies repo`checkpoints, api, cluster
    ensures first.Some? ==> again == first && At(repo.Data(), r, Activated)
    ensures first.Some? && old(r !in repo.checkpoints) ==>
              && old(api.svc.Some?)
              && api.svc == Some(old(api.svc.value).(op := ByRequest(r), target := CandidateTarget(r, cfg),
                                                     rv := first.value.rv))
              && first == Some(GateOf(api.svc.value))
  {
    first := AdvanceCandidateOperation(repo, api, cluster, r, cfg, ready);
    again := AdvanceCandidateOperation(repo, api, cluster, r, cfg, readyAgain);
  }

  /** A new request that found its candidate not ready yet is fenced, and the next call activates it. */
  method AdvanceWhenReady(repo: CandidateRepository, api: ServiceApi, cluster: WorkloadApi, r: Req, cfg: Config)
    returns (first: Option<Gate>, second: Option<Gate>)
    requires r in repo.requests && repo.requests[r].state.Pending? && repo.requests[r].cfg == cfg
    requires r !in repo.checkpoints && !Tombstoned(cluster.workloads, Candidate(r))
    requires api.svc.Some? && api.svc.value.op != ByRequest(r) && api.svc.value.target.port == cfg.port
    modifies repo`checkpoints, api, cluster
    ensures first.None? && second.Some? && At(repo.Data(), r, Activated)
    ensures api.svc == Some(old(api.svc.value).(op := ByRequest(r), target := CandidateTarget(r, cfg),
                                                rv := second.value.rv))
    ensures second == Some(GateOf(api.svc.value)) && Runs(cluster.workloads, Candidate(r))
  {
    first := AdvanceCandidateOperation(repo, api, cluster, r, cfg, false);
    second := AdvanceCandidateOperation(repo, api, cluster, r, cfg, true);
  }

  // ------------------------------------------------------------------ reclaim

  /** Workloads may only have become tombstones, and only those in `gone`. */
  ghost predicate OnlyRetired(before: Workloads, after: Workloads, gone: set<Selector>) {
    && TombstonesKept(before, after)
    && (forall g :: g !in gone ==> (g in after <==> g in before))
    && (forall g :: g !in gone && g in before ==> after[g] == before[g])
    && (forall g :: g in gone && g in after && !Tombstoned(before, g) ==>
          after[g] == Retired(false) || (g in before && after[g] == before[g]))
  }

  /** The Service still is at the gate that the caller captured. */
  predicate SameGate(svc: Option<Service>, gate: Option<Gate>) {
    gate.Some? ==> svc.Some? && GateOf(svc.value) == gate.value
  }

  /** Tombstones every listed generation except `keep`, reading the gate again before each one if there is
      one to hold. */
  method RetireAll(api: ServiceApi, cluster: WorkloadApi, generations: seq<Req>, keep: Option<Req>, gate: Option<Gate>)
    returns (ok: bool)
    modifies cluster
    ensures SameGate(api.svc, gate) ==> ok
    ensures ok ==> forall g :: g in generations && keep != Some(g) ==> Tombstoned(cluster.workloads, Candidate(g))
    ensures OnlyRetired(old(cluster.workloads), cluster.workloads, OtherCandidates(generations, keep))
    ensures !SameGate(api.svc, gate) ==> cluster.workloads == old(cluster.workloads)
    ensures gate.Some? && (api.svc.None? || GateOf(api.svc.value) != gate.value) ==>
              && cluster.workloads == old(cluster.workloads)
              && (ok <==> forall g :: g in generations ==> keep == Some(g))
  {
    for n := 0 to |generations|
      invariant forall i :: 0 <= i < n && keep != Some(generations[i]) ==>
        Tombstoned(cluster.workloads, Candidate(generations[i]))
      invariant OnlyRetired(old(cluster.workloads), cluster.workloads, OtherCandidates(generations, keep))
      invariant !SameGate(api.svc, gate) ==> cluster.workloads == old(cluster.workloads)
      invariant !SameGate(api.svc, gate) ==> forall i :: 0 <= i < n ==> keep == Some(generations[i])
    {
      if keep != Some(generations[n]) {
        var observed := api.CaptureActivationGate();
        if gate.Some? && (observed.None? || observed.value.0 != gate.value) {
          return false;
        }
        assert Candidate(generations[n]) in OtherCandidates(generations, keep);
        cluster.Retire(Candidate(generations[n]));
      }
    }
    return true;
  }

  ghost function OtherCandidates(generations: seq<Req>, keep: Option<Req>): set<Selector> {
    set g | g in generations && keep != Some(g) :: Candidate(g)
  }

  method AllGone(cluster: WorkloadApi, generations: seq<Req>, keep: Option<Req>) returns (gone: bool)
    ensures gone <==> forall g :: g in generations && keep != Some(g) ==> Drained(cluster.workloads, Candidate(g))
  {
    for n := 0 to |generations|
      invariant forall i :: 0 <= i < n && keep != Some(generations[i]) ==>
        Drained(cluster.workloads, Candidate(generations[i]))
    {
      var g := generations[n];
      if keep != Some(g) && (Candidate(g) !in cluster.workloads || cluster.workloads[Candidate(g)] != Retired(true)) {
        assert g in generations;
        return false;
      }
    }
    return true;
  }

  /** Tombstones the legacy workload if there is one, and says whether it is gone. */
  method RetireLegacy(cluster: WorkloadApi) returns (gone: bool)
    modifies cluster
    ensures OnlyRetired(old(cluster.workloads), cluster.workloads, {Legacy})
    ensures Legacy in cluster.workloads <==> old(Legacy in cluster.workloads)
    ensures gone <==> (Legacy in cluster.workloads ==> Drained(cluster.workloads, Legacy))
    ensures Legacy in cluster.workloads ==> Tombstoned(cluster.workloads, Legacy)
  {
    if Legacy !in cluster.workloads {
      return true;
    }
    cluster.Retire(Legacy);
    return cluster.workloads[Legacy] == Retired(true);
  }

  datatype Reclaimed = Skipped | Incomplete | Complete

  /** The Service sits where the applied request `r` left it, and nothing is going on. */
  predicate Settled(d: AppData, svc: Option<Service>, ws: Workloads, r: Req) {
    && Ended(d, r, Applied) && r in d.bindings && !Busy(d)
    && Live(d.row) && d.row.value.desired == d.requests[r].cfg
    && svc.Some? && svc.value.deleting.None? && svc.value.op == ByRequest(r) && svc.value.target.sel == Candidate(r)
    && Runs(ws, Candidate(r))
  }

  /** Retires every generation except the selected one, and only while the Service is settled on it;
      says complete exactly when all the others, and the legacy workload, are gone. */
  method ReclaimCandidateCapacity(repo: CandidateRepository, api: ServiceApi, cluster: WorkloadApi, r: Req,
                                  generations: seq<Req>) returns (result: Reclaimed)
    requires forall g :: g in generations <==> g in repo.bindings
    modifies cluster
    ensures old(exists q :: q in repo.requests && repo.requests[q].state.Pending?) ==>
              !result.Complete? && cluster.workloads == old(cluster.workloads)
    ensures !old(Settled(repo.Data(), api.svc, cluster.workloads, r)) ==>
              !result.Complete? && cluster.workloads == old(cluster.workloads)
    ensures old(Settled(repo.Data(), api.svc, cluster.workloads, r)) ==>
              && Runs(cluster.workloads, Candidate(r))
              && TombstonesKept(old(cluster.workloads), cluster.workloads)
              && (forall g :: g in repo.bindings && g != r ==> Tombstoned(cluster.workloads, Candidate(g)))
              && (result.Complete? <==>
                    && (forall g :: g in repo.bindings && g != r ==> Drained(cluster.workloads, Candidate(g)))
                    && (Legacy in cluster.workloads ==> Drained(cluster.workloads, Legacy)))
  {
    if r !in repo.requests {
      return Incomplete;
    }
    if repo.requests[r].state != Done(Applied) {
      return Skipped;
    }
    if r !in repo.bindings || repo.row.None? {
      return Incomplete;
    }
    if repo.row.value.deleted || repo.row.value.desired != repo.requests[r].cfg || Busy(repo.Data()) {
      return Skipped;
    }
    if api.svc.None? || api.svc.value.deleting.Some? {
      return Incomplete;
    }
    if api.svc.value.op != ByRequest(r) || api.svc.value.target.sel != Candidate(r) {
      return Skipped;
    }
    if Candidate(r) !in cluster.workloads || !cluster.workloads[Candidate(r)].Running? {
      return Incomplete;
    }
    var captured := api.CaptureActivationGate();
    var gate := captured.value.0;
    var retired := RetireAll(api, cluster, generations, Some(r), Some(gate));
    var legacyGone := RetireLegacy(cluster);
    var gone := AllGone(cluster, generations, Some(r));
    var after := api.CaptureActivationGate();
    return if retired && legacyGone && gone && after.Some? && after.value.0 == gate then Complete else Incomplete;
  }

  // ----------------------------------------------------------------- deletion

  /** The complete mark of this row's deletion: both annotations, the operation, the selector and the port. */
  predicate IntactMark(v: Service, row: AppRow) {
    && v.deleting == Some(row.id) && v.op == ByDeletion(row.id)
    && v.target == Target(Inactive(ByDeletion(row.id)), row.desired.port)
  }

  predicate Markable(d: AppData, svc: Option<Service>) {
    && d.row.Some?
    && var row := d.row.value;
       if svc.None? then row.deleted
       else svc.value.deleting.Some? ==>
         MarkedFor(svc.value, row) && svc.value.target == DeletionTarget(row.id, row.desired)
  }

  /** Puts the deletion mark on the Service, or recognises it, or creates a marked Service if the
      application is hidden already. */
  method BeginCandidateDeletion(repo: CandidateRepository, api: ServiceApi) returns (gate: Option<Gate>)
    modifies api
    ensures gate.Some? <==> old(Markable(repo.Data(), api.svc))
    ensures repo.row.Some? && old(api.svc.Some? && api.svc.value.deleting.None?) ==> gate.Some?
    ensures repo.row.Some? && repo.row.value.deleted && old(api.svc.None?) ==> gate.Some?
    ensures repo.row.Some? && !repo.row.value.deleted && old(api.svc.None?) ==> gate.None?
    ensures repo.row.Some? && old(api.svc.Some? && api.svc.value.deleting.Some?) ==>
              gate == if old(IntactMark(api.svc.value, repo.row.value)) then old(Some(GateOf(api.svc.value))) else None
    ensures gate.None? ==> api.svc == old(api.svc)
    ensures gate.Some? ==> && api.svc.Some? && gate == Some(GateOf(api.svc.value))
                           && MarkedFor(api.svc.value, repo.row.value)
                           && api.svc.value.target == DeletionTarget(repo.row.value.id, repo.row.value.desired)
    ensures gate.Some? && old(api.svc.Some? && api.svc.value.deleting.Some?) ==> api.svc == old(api.svc)
  {
    if repo.row.None? {
      return None;
    }
    var row := repo.row.value;
    var target := DeletionTarget(row.id, row.desired);
    if api.svc.None? {
      if !row.deleted {
        return None;
      }
      api.CreateDeletionService(row.id, target);
    }
    if api.svc.value.deleting.Some? {
      if !MarkedFor(api.svc.value, row) || api.svc.value.target != target {
        return None;
      }
      return Some(GateOf(api.svc.value));
    }
    gate := api.UpdateActivationGate(
      api.svc.value.(op := ByDeletion(row.id), target := target, deleting := Some(row.id)));
  }

  predicate EverythingGone(d: AppData, ws: Workloads) {
    && (forall g :: g in d.bindings ==> Drained(ws, Candidate(g)))
    && (Legacy in ws ==> Drained(ws, Legacy))
  }

  /** The Service is at this gate and carries the mark of this application's deletion. */
  predicate AtMark(svc: Option<Service>, row: Option<AppRow>, gate: Gate) {
    svc.Some? && GateOf(svc.value) == gate && row.Some? && MarkedFor(svc.value, row.value)
  }

  /** Drains the legacy workload; clean once nothing of the application runs and the mark still stands. */
  method CleanupCandidateDeletion(repo: CandidateRepository, api: ServiceApi, cluster: WorkloadApi,
                                  generations: seq<Req>, gate: Gate) returns (clean: bool)
    requires forall g :: g in generations <==> g in repo.bindings
    modifies cluster
    ensures clean <==> AtMark(api.svc, repo.row, gate) && EverythingGone(repo.Data(), cluster.workloads)
    ensures OnlyRetired(old(cluster.workloads), cluster.workloads, {Legacy})
    ensures !AtMark(api.svc, repo.row, gate) ==> cluster.workloads == old(cluster.workloads)
    ensures AtMark(api.svc, repo.row, gate) && Legacy in cluster.workloads ==> Tombstoned(cluster.workloads, Legacy)
  {
    if !AtMark(api.svc, repo.row, gate) {
      return false;
    }
    var legacyGone := RetireLegacy(cluster);
    var gone := AllGone(cluster, generations, None);
    return legacyGone && gone && AtMark(api.svc, repo.row, gate);
  }

  /** Removes the Service at the marked gate once nothing runs; a missing Service is success. */
  method FinishCandidateDeletion(repo: CandidateRepository, api: ServiceApi, cluster: WorkloadApi,
                                 generations: seq<Req>, gate: Gate) returns (ok: bool)
    requires forall g :: g in generations <==> g in repo.bindings
    modifies api
    ensures ok <==> || old(api.svc.None?)
                    || old(AtMark(api.svc, repo.row, gate) && EverythingGone(repo.Data(), cluster.workloads))
    ensures api.svc == if ok then None else old(api.svc)
  {
    if api.svc.None? {
      return true;
    }
    var gone := AllGone(cluster, generations, None);
    if !AtMark(api.svc, repo.row, gate) || !gone
       || (Legacy in cluster.workloads && !Drained(cluster.workloads, Legacy)) {
      return false;
    }
    ok := api.DeleteService(gate.rv);
  }

  /** One DeleteApp call. It removes the Service exactly when it succeeds, and then the row is deleted,
      the route gone and every generation drained; it touches the row and the route only once
      everything is gone; and once the mark is on, every further call leaves the marked Service as
      it is until the removal. */
  method TryDeleteCandidateApp(repo: CandidateRepository, api: ServiceApi, cluster: WorkloadApi, generations: seq<Req>)
    returns (ok: bool)
    requires forall g :: g in generations <==> g in repo.bindings
    modifies repo`row, repo`route, api, cluster
    ensures ok ==> && api.svc.None? && old(repo.row.Some?) && repo.row == Some(old(repo.row.value).(deleted := true))
                   && repo.route.None?
                   && EverythingGone(repo.Data(), cluster.workloads)
    ensures ok <==> && old(!Busy(repo.Data()) && repo.bindings != map[] && Markable(repo.Data(), api.svc))
                    && EverythingGone(repo.Data(), cluster.workloads)
    ensures !ok ==> repo.row == old(repo.row) && repo.route == old(repo.route)
    ensures !ok && old(!Busy(repo.Data()) && repo.bindings != map[] && Markable(repo.Data(), api.svc)) ==>
              && api.svc.Some? && repo.row.Some? && IntactMark(api.svc.value, repo.row.value)
              && (forall g :: g in repo.bindings ==> Tombstoned(cluster.workloads, Candidate(g)))
              && (old(forall g :: g in repo.bindings ==> Drained(cluster.workloads, Candidate(g))) ==>
                    (Legacy in cluster.workloads ==> Tombstoned(cluster.workloads, Legacy)))
    ensures !ok && old(api.svc.Some?) ==> api.svc.Some?
    ensures !ok && old(api.svc.Some? && api.svc.value.deleting.Some?) ==> api.svc == old(api.svc)
    ensures old(Busy(repo.Data())) ==> api.svc == old(api.svc) && cluster.workloads == old(cluster.workloads)
    ensures TombstonesKept(old(cluster.workloads), cluster.workloads)
  {
    if Busy(repo.Data()) || repo.row.None? || |generations| == 0 {
      assert |generations| == 0 ==> repo.bindings == map[];
      return false;
    }
    assert generations[0] in repo.bindings;
    var gate := BeginCandidateDeletion(repo, api);
    if gate.None? {
      return false;
    }
    var retired := RetireAll(api, cluster, generations, None, None);
    assert forall g :: Drained(old(cluster.workloads), g) ==> Drained(cluster.workloads, g);
    var gone := AllGone(cluster, generations, None);
    if !gone {
      return false;
    }
    var clean := CleanupCandidateDeletion(repo, api, cluster, generations, gate.value);
    if !clean {
      return false;
    }
    repo.route := None;
    repo.row := Some(repo.row.value.(deleted := true));
    ok := FinishCandidateDeletion(repo, api, cluster, generations, gate.value);
  }

  /** Three calls always suffice, if the pods of tombstones drain in between: one for the candidates, one for the
      legacy workload, one for the removal. */
  method DeleteInThreeCalls(repo: CandidateRepository, api: ServiceApi, cluster: WorkloadApi, generations: seq<Req>)
    requires forall g :: g in generations <==> g in repo.bindings
    requires (forall q :: q in repo.requests ==> repo.requests[q].state.Done?) && repo.bindings != map[]
    requires repo.row.Some?
    requires if api.svc.None? then repo.row.value.deleted
             else api.svc.value.deleting.None? || IntactMark(api.svc.value, repo.row.value)
    modifies repo`row, repo`route, api, cluster
    ensures api.svc.None? && repo.row == Some(old(repo.row.value).(deleted := true)) && repo.route.None?
    ensures EverythingGone(repo.Data(), cluster.workloads)
  {
    var ok := TryDeleteCandidateApp(repo, api, cluster, generations);
    if ok {
      return;
    }
    cluster.DrainTombstones();
    ok := TryDeleteCandidateApp(repo, api, cluster, generations);
    if ok {
      return;
    }
    cluster.DrainTombstones();
    ok := TryDeleteCandidateApp(repo, api, cluster, generations);
  }

  // --------------------------------------------------- agreement with the steps

  /** A deletion call gets its gate exactly when the state machine lets a deletion mark, create or resume. */
  lemma MarkableIsEnabled(s: Sys)
    requires s.pc.Deleting?
    ensures Markable(s.db, s.svc) <==> Enabled(s, DeleteMark) || Enabled(s, DeleteCreate) || Enabled(s, DeleteResume)
  {
  }

  /** Cleanup and removal are tied to the gate exactly as the steps of the state machine are. */
  lemma AtMarkIsEnabled(s: Sys, gate: Gate)
    ensures AtMark(s.svc, s.db.row, gate) <==> AtMarkedGate(s, gate)
    ensures s.pc == DeleteDrained(gate) ==>
              (Enabled(s, DeleteClean) <==> AtMark(s.svc, s.db.row, gate) && EverythingGone(s.db, s.workloads))
    ensures s.pc == DeleteRowed(gate) ==>
              (Enabled(s, DeleteFinish) <==> AtMark(s.svc, s.db.row, gate) && EverythingGone(s.db, s.workloads))
  {
  }

  /** Reclamation acts exactly when the state machine lets it start. */
  lemma SettledIsEnabled(s: Sys)
    requires s.pc.Reclaiming? && s.db.requests.Keys == s.db.bindings.Keys
    ensures Settled(s.db, s.svc, s.workloads, s.pc.r) <==> Enabled(s, ReclaimStart)
  {
  }
}
