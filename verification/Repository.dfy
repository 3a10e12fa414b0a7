/** The repositories behind the transactions: table by table updates of one application's rows.

    Each method is one transaction. It either changes nothing and reports a conflict, or its field
    updates together amount to the transaction function of module Store. */
module Repository {
  import opened Types
  import opened Store

  class CandidateRepository {
    var row: Option<AppRow>
    var requests: map<Req, Request>
    var bindings: map<Req, Binding>
    var deployments: map<nat, Deployment>
    var withdrawals: set<Req>
    var checkpoints: map<Req, Checkpoint>
    var route: Option<nat>

    function Data(): (d: AppData)
      reads this
    {
      AppData(row, requests, bindings, deployments, withdrawals, checkpoints, route)
    }

    constructor (d: AppData)
      ensures Data() == d
    {
      row, requests, bindings, deployments := d.row, d.requests, d.bindings, d.deployments;
      withdrawals, checkpoints, route := d.withdrawals, d.checkpoints, d.route;
    }

    /** Begin and BeginWithdrawal. A known request is accepted only with the configuration and the report flag it
        was journalled with, and then at most its withdrawal is noted. A new one is accepted only while
        nothing is pending, with a fresh deployment, and, unless it is a withdrawal, a free domain and the
        predecessor's port; its row carries exactly what was asked for. */
    method BeginCandidate(r: Req, cfg: Config, report: bool, appId: nat, depId: nat, free: bool, withdrawal: bool)
      returns (ok: bool)
      modifies this
      ensures var after := BeginTx(old(Data()), r, cfg, report, appId, depId, free, withdrawal);
              ok == after.Some? && Data() == if ok then after.value else old(Data())
      ensures !ok ==> Data() == old(Data())
      ensures r in old(bindings) ==>
                && (ok <==> r in old(requests) && old(requests)[r].cfg == cfg && old(requests)[r].report == report)
                && requests == old(requests) && bindings == old(bindings) && deployments == old(deployments)
                && row == old(row) && route == old(route) && checkpoints == old(checkpoints)
                && withdrawals == old(withdrawals) +
                     if ok && withdrawal && old(requests)[r].state.Pending? then {r} else {}
      ensures r !in old(bindings) ==>
                (ok <==>
                   && r !in old(requests) && depId !in old(deployments)
                   && (forall q :: q in old(requests) ==> old(requests)[q].state.Done?)
                   && (withdrawal || free)
                   && (withdrawal || old(row).None? || old(row).value.deleted
                       || old(row).value.desired.port == cfg.port))
      ensures ok && r !in old(bindings) ==>
                && requests.Keys == old(requests).Keys + {r} && requests == old(requests)[r := requests[r]]
                && requests[r].cfg == cfg && requests[r].report == report && requests[r].state.Pending?
                && requests[r].reply.None?
                && requests[r].previous == (if old(row).Some? && !old(row).value.deleted then old(row) else None)
                && row == (if old(row).Some? then old(row) else Some(AppRow(appId, cfg, true)))
                && bindings == old(bindings)[r := Binding(row.value.id, depId)]
                && deployments == old(deployments)[depId := Deployment(row.value.id, Pending)]
                && withdrawals == old(withdrawals) + (if withdrawal then {r} else {})
                && checkpoints == old(checkpoints) && route == old(route)
    {
      if r in bindings {
        if r !in requests || requests[r].cfg != cfg || requests[r].report != report {
          return false;
        }
        if withdrawal && requests[r].state.Pending? {
          withdrawals := withdrawals + {r};
        }
        return true;
      }
      if Busy(Data()) || r in requests {
        return false;
      }
      if !withdrawal && !free {
        return false;
      }
      var previous := None;
      if row.Some? && !row.value.deleted {
        previous := row;
        if !withdrawal && row.value.desired.port != cfg.port {
          return false;
        }
      }
      if depId in deployments {
        return false;
      }
      requests := requests[r := Request(Pending, cfg, report, previous, None)];
      if row.None? {
        row := Some(AppRow(appId, cfg, true));
      }
      deployments := deployments[depId := Deployment(row.value.id, Pending)];
      bindings := bindings[r := Binding(row.value.id, depId)];
      if withdrawal {
        withdrawals := withdrawals + {r};
      }
      return true;
    }

    /** Creates the checkpoint of a pending request once; only the identical intent is accepted again. */
    method SaveActivationIntent(r: Req, intent: Intent) returns (ok: bool)
      modifies this`checkpoints
      ensures ok <==> && r in requests && requests[r].state.Pending?
                      && (r in old(checkpoints) ==> old(checkpoints)[r].intent == intent)
      ensures !ok || r in old(checkpoints) ==> checkpoints == old(checkpoints)
      ensures ok && r !in old(checkpoints) ==> checkpoints == old(checkpoints)[r := Checkpoint(Prepared, intent, Empty)]
      ensures var after := SaveIntentTx(old(Data()), r, intent);
              ok == after.Some? && Data() == if ok then after.value else old(Data())
    {
      if r !in requests || !requests[r].state.Pending? {
        return false;
      }
      if r in checkpoints {
        return checkpoints[r].intent == intent;
      }
      checkpoints := checkpoints[r := Checkpoint(Prepared, intent, Empty)];
      return true;
    }

    /** Moves a pending request along one of the five transitions, from exactly the expected stage. */
    method RecordActivationGate(r: Req, expected: Stage, next: Stage, gate: SavedGate) returns (ok: bool)
      modifies this`checkpoints
      ensures ok <==> && r in requests && requests[r].state.Pending?
                      && r in old(checkpoints) && old(checkpoints)[r].stage == expected
                      && (expected, next) in {(Prepared, Fenced), (Fenced, Activated), (Prepared, Recovering),
                                              (Fenced, Recovering), (Activated, Recovering),
                                              (Recovering, Stage.Withdrawn)}
      ensures checkpoints == if ok then old(checkpoints)[r := Checkpoint(next, old(checkpoints)[r].intent, gate)]
                             else old(checkpoints)
      ensures var after := RecordGateTx(old(Data()), r, expected, next, gate);
              ok == after.Some? && Data() == if ok then after.value else old(Data())
    {
      if r !in requests || r !in checkpoints {
        return false;
      }
      if !requests[r].state.Pending? || checkpoints[r].stage == Stage.Withdrawn {
        return false;
      }
      if !ValidTransition(expected, next) || checkpoints[r].stage != expected {
        return false;
      }
      checkpoints := checkpoints[r := checkpoints[r].(stage := next, saved := gate)];
      return true;
    }

    /** The single commit of application, route, deployment and receipt. A terminal request is answered with its
        stored receipt if it ended that way, and refused otherwise. A pending one is committed only with the
        checkpoint that the caller inspected, at the stage of its outcome, over an unchanged predecessor. A
        withdrawal leaves row and route to the predecessor, or removes the route if there was none. */
    method Finalize(r: Req, o: Outcome, expected: SavedGate) returns (reply: Option<Reply>)
      modifies this
      ensures var after := FinalizeTx(old(Data()), r, o, expected);
              if after.None? then reply.None? && Data() == old(Data())
              else reply == Some(after.value.1) && Data() == after.value.0
      ensures reply.None? ==> Data() == old(Data())
      ensures old(r in requests && r in bindings && requests[r].state.Done?) ==>
                && Data() == old(Data())
                && reply == if requests[r].state == Done(o) then requests[r].reply else None
      ensures old(Pend(Data(), r)) ==>
                (reply.Some? <==> old(
                   && r in bindings && r in checkpoints && checkpoints[r].saved == expected
                   && checkpoints[r].stage == (if o.Applied? then Activated else Stage.Withdrawn)
                   && checkpoints[r].intent.cfg == requests[r].cfg
                   && row.Some? && row.value.id == bindings[r].appId
                   && (if requests[r].previous.Some? then row == requests[r].previous && !row.value.deleted
                       else row.value.deleted)
                   && bindings[r].depId in deployments
                   && deployments[bindings[r].depId] == Deployment(row.value.id, Pending)))
      ensures old(Pend(Data(), r)) && reply.Some? ==>
                && var request, was := old(requests)[r], old(row).value;
                && reply.value == Reply(row.value, o, request.cfg)
                && requests == old(requests)[r := request.(state := Done(o), reply := reply)]
                && deployments == old(deployments)[bindings[r].depId := Deployment(was.id, Done(o))]
                && row == Some(if o.Applied? then AppRow(was.id, request.cfg, false) else was)
                && route == (if o.Applied? then request.cfg.domain
                             else if request.previous.Some? then old(route) else None)
                && bindings == old(bindings) && withdrawals == old(withdrawals) && checkpoints == old(checkpoints)
    {
      if r !in requests || r !in bindings {
        return None;
      }
      var request, binding := requests[r], bindings[r];
      if request.state.Done? {
        return if request.state == Done(o) then request.reply else None;
      }
      if !At(Data(), r, WantedStage(o)) || checkpoints[r].saved != expected
         || checkpoints[r].intent.cfg != request.cfg {
        return None;
      }
      if row.None? || row.value.id != binding.appId || !PredecessorHolds(row.value, request) {
        return None;
      }
      if binding.depId !in deployments || deployments[binding.depId] != Deployment(binding.appId, Pending) {
        return None;
      }
      if o.Applied? {
        row := Some(row.value.(desired := request.cfg, deleted := false));
        route := request.cfg.domain;
      } else if request.previous.None? {
        route := None;
      }
      deployments := deployments[binding.depId := Deployment(binding.appId, Done(o))];
      var result := Reply(row.value, o, request.cfg);
      requests := requests[r := request.(state := Done(o), reply := Some(result))];
      return Some(result);
    }
  }
}
