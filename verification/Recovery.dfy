/** RestoreCandidateTraffic as the server runs it: step by step on the checkpoint row and on the
    Service, while no other writer interferes. */
module Recovery {
  import opened Types
  import opened Store
  import opened Machine
  import opened Convergence
  import opened Repository

  /** The Service object behind the API server. `bumps` says whether an update that changes nothing
      still gets a new resourceVersion. */
  class ServiceApi {
    var svc: Option<Service>
    var nextRv: nat
    var nextUid: nat
    const bumps: bool

    constructor (svc: Option<Service>, nextRv: nat, nextUid: nat, bumps: bool)
      ensures this.svc == svc && this.nextRv == nextRv && this.nextUid == nextUid && this.bumps == bumps
    {
      this.svc, this.nextRv, this.nextUid, this.bumps := svc, nextRv, nextUid, bumps;
    }

    method CaptureActivationGate() returns (found: Option<(Gate, Target)>)
      ensures found.None? <==> svc.None?
      ensures svc.Some? ==> found == Some((GateOf(svc.value), svc.value.target))
    {
      return if svc.Some? then Some((GateOf(svc.value), svc.value.target)) else None;
    }

    /** The API server compares the resourceVersion and swaps in one step. */
    method UpdateActivationGate(v: Service) returns (gate: Option<Gate>)
      modifies this
      ensures gate.Some? <==> old(Hits(svc, v.rv))
      ensures gate.None? ==> svc == old(svc)
      ensures gate.Some? ==> svc.Some? && svc.value == v.(rv := svc.value.rv) && gate == Some(GateOf(svc.value))
    {
      if svc.None? || svc.value.rv != v.rv {
        return None;
      }
      if svc.value != v || bumps {
        svc, nextRv := Some(v.(rv := nextRv)), nextRv + 1;
      }
      return Some(GateOf(svc.value));
    }

    /** Takes over the operation identity and leaves the selection alone. */
    method FenceActivationGate(gate: Gate, op: Op) returns (fenced: Option<Gate>)
      modifies this
      ensures fenced.Some? <==> op != gate.op && old(svc.Some? && GateOf(svc.value) == gate)
      ensures fenced.None? ==> svc == old(svc)
      ensures fenced.Some? ==> svc == Some(old(svc.value).(op := op, rv := fenced.value.rv))
                               && fenced == Some(GateOf(svc.value))
    {
      if op == gate.op || svc.None? || GateOf(svc.value) != gate {
        return None;
      }
      fenced := UpdateActivationGate(svc.value.(op := op));
    }

    /** Replaces selector and port together and leaves the operation identity alone. */
    method ReplaceActivationTarget(gate: Gate, target: Target) returns (replaced: Option<Gate>)
      modifies this
      ensures replaced.Some? <==> gate.op != Unset && old(svc.Some? && GateOf(svc.value) == gate)
      ensures replaced.None? ==> svc == old(svc)
      ensures replaced.Some? ==> svc == Some(old(svc.value).(target := target, rv := replaced.value.rv))
                                 && replaced == Some(GateOf(svc.value))
    {
      if gate.op == Unset || svc.None? || GateOf(svc.value) != gate {
        return None;
      }
      replaced := UpdateActivationGate(svc.value.(target := target));
    }

    /** Creates the deletion tombstone; somebody else's Service is not overwritten. */
    method CreateDeletionService(appId: nat, target: Target)
      modifies this
      ensures old(svc.Some?) ==> svc == old(svc)
      ensures old(svc.None?) ==>
                svc == Some(Service(old(nextUid), old(nextRv), ByDeletion(appId), target, None, Some(appId)))
    {
      if svc.None? {
        svc := Some(Service(nextUid, nextRv, ByDeletion(appId), target, None, Some(appId)));
        nextRv, nextUid := nextRv + 1, nextUid + 1;
      }
    }

    /** Removes the Service at exactly this resourceVersion. */
    method DeleteService(rv: nat) returns (ok: bool)
      modifies this
      ensures ok <==> old(Hits(svc, rv))
      ensures svc == if ok then None else old(svc)
    {
      ok := svc.Some? && svc.value.rv == rv;
      if ok {
        svc := None;
      }
    }
  }

  /** The checkpoints with `r` moved to `stage`, its intent kept. */
  function Staged(cs: map<Req, Checkpoint>, r: Req, stage: Stage, saved: SavedGate): map<Req, Checkpoint> {
    if r in cs then cs[r := cs[r].(stage := stage, saved := saved)] else cs
  }

  /** Persists the recovery identity before anything touches the cluster. Reports the gate of a
      request that is withdrawn already. */
  method RecordRecoveryIdentity(repo: CandidateRepository, r: Req) returns (ok: bool, finished: Option<Gate>)
    requires Pend(repo.Data(), r) && r in repo.checkpoints
    modifies repo`checkpoints
    ensures var c := old(repo.checkpoints)[r];
            if c.stage == Stage.Withdrawn then
              && repo.checkpoints == old(repo.checkpoints)
              && (ok <==> c.saved.Token? && c.saved.gate.uid == c.intent.gate.uid && c.saved.gate.op == ByRecovery(r))
              && finished == if ok then Some(c.saved.gate) else None
            else
              && finished.None? && (ok <==> (c.stage == Recovering ==> c.saved == RecoveryId(r)))
              && repo.checkpoints == if ok then Staged(old(repo.checkpoints), r, Recovering, RecoveryId(r))
                                     else old(repo.checkpoints)
  {
    var c := repo.checkpoints[r];
    finished := None;
    match c.stage {
      case Withdrawn =>
        ok := c.saved.Token? && c.saved.gate.uid == c.intent.gate.uid && c.saved.gate.op == ByRecovery(r);
        if ok {
          finished := Some(c.saved.gate);
        }
      case Recovering =>
        ok := c.saved == RecoveryId(r);
        assert ok ==> repo.checkpoints[r := c] == repo.checkpoints;
      case _ =>
        ok := repo.RecordActivationGate(r, c.stage, Recovering, RecoveryId(r));
    }
  }

  /** Fences the Service for the recovery of `r`, unless it is fenced already, and restores the saved target. */
  method FenceAndRestore(api: ServiceApi, intent: Intent, r: Req) returns (gate: Option<Gate>)
    modifies api
    ensures gate.Some? <==> old(&& api.svc.Some? && api.svc.value.uid == intent.gate.uid
                                && api.svc.value.op in {intent.gate.op, ByRequest(r), ByRecovery(r)})
    ensures gate.None? ==> api.svc == old(api.svc)
    ensures gate.Some? ==>
              && api.svc == Some(old(api.svc.value).(op := ByRecovery(r), target := intent.pred, rv := gate.value.rv))
              && gate == Some(GateOf(api.svc.value))
  {
    var found := api.CaptureActivationGate();
    if found.None? {
      return None;
    }
    var current, target := found.value.0, Some(found.value.1);
    if current.uid != intent.gate.uid {
      return None;
    }
    if current.op != intent.gate.op && current.op != ByRequest(r) && current.op != ByRecovery(r) {
      return None;
    }
    gate := Some(current);
    if current.op != ByRecovery(r) {
      gate := api.FenceActivationGate(current, ByRecovery(r));
      target := None;
    }
    if target != Some(intent.pred) {
      gate := api.ReplaceActivationTarget(gate.value, intent.pred);
    }
  }

  /** Succeeds exactly when the rows and the Service identify the operation; ends withdrawn, with the
      Service back on the saved predecessor under the recovery identity and at the returned gate.
      A failure leaves the Service alone and at most the recovery identity on record. */
  method RestoreCandidateTraffic(repo: CandidateRepository, api: ServiceApi, r: Req) returns (gate: Option<Gate>)
    modifies repo`checkpoints, api
    ensures gate.Some? <==> old(Restorable(repo.Data(), api.svc, r))
    ensures gate.Some? ==> repo.checkpoints == Staged(old(repo.checkpoints), r, Stage.Withdrawn, Token(gate.value))
    ensures gate.Some? && old(At(repo.Data(), r, Stage.Withdrawn)) ==>
              api.svc == old(api.svc) && repo.checkpoints == old(repo.checkpoints)
    ensures gate.Some? && !old(At(repo.Data(), r, Stage.Withdrawn)) ==>
              && r in repo.checkpoints
              && api.svc == Some(old(api.svc.value).(op := ByRecovery(r), target := repo.checkpoints[r].intent.pred,
                                                     rv := gate.value.rv))
              && gate == Some(GateOf(api.svc.value))
    ensures gate.None? ==>
              && api.svc == old(api.svc)
              && repo.checkpoints in {old(repo.checkpoints),
                                      Staged(old(repo.checkpoints), r, Recovering, RecoveryId(r))}
  {
    if r !in repo.requests || !repo.requests[r].state.Pending? || r !in repo.checkpoints {
      return None;
    }
    var c := repo.checkpoints[r];
    if c.intent.cfg != repo.requests[r].cfg || c.intent.gate.op == ByRecovery(r) {
      return None;
    }
    var ok, finished := RecordRecoveryIdentity(repo, r);
    if !ok || finished.Some? {
      assert finished.Some? ==> old(repo.checkpoints)[r := c] == old(repo.checkpoints);
      return finished;
    }
    gate := FenceAndRestore(api, c.intent, r);
    if gate.Some? {
      var recorded := repo.RecordActivationGate(r, Recovering, Stage.Withdrawn, Token(gate.value));
    }
  }

  /** Running the recovery again returns the same gate and changes nothing. */
  method RestoreAgain(repo: CandidateRepository, api: ServiceApi, r: Req)
    returns (first: Option<Gate>, again: Option<Gate>)
    modifies repo`checkpoints, api
    ensures first.Some? <==> old(Restorable(repo.Data(), api.svc, r))
    ensures first.Some? ==>
              && again == first
              && repo.checkpoints == Staged(old(repo.checkpoints), r, Stage.Withdrawn, Token(first.value))
    ensures first.Some? && !old(At(repo.Data(), r, Stage.Withdrawn)) ==>
              && r in repo.checkpoints && api.svc.Some? && first == Some(GateOf(api.svc.value))
              && api.svc.value.target == repo.checkpoints[r].intent.pred
  {
    first := RestoreCandidateTraffic(repo, api, r);
    label Once:
    again := RestoreCandidateTraffic(repo, api, r);
    if first.Some? {
      assert old@Once(Restorable(repo.Data(), api.svc, r));
      var c := old@Once(repo.checkpoints)[r];
      assert repo.checkpoints[r] == c.(stage := Stage.Withdrawn, saved := Token(again.value));
    }
  }
}
