/** The database rows of one application and the transactions on them.

    Every function below is one SQLite transaction: `None` is a rolled-back conflict,
    `Some` the committed rows. */
module Store {
  import opened Types

  datatype State = Pending | Done(outcome: Outcome)

  datatype Stage = Prepared | Fenced | Activated | Recovering | Withdrawn

  datatype AppRow = AppRow(id: nat, desired: Config, deleted: bool)

  /** The immutable response stored with a terminal request. */
  datatype Reply = Reply(app: AppRow, status: Outcome, requested: Config)

  datatype Request = Request(
    state: State, cfg: Config, report: bool, previous: Option<AppRow>, reply: Option<Reply>)

  datatype Binding = Binding(appId: nat, depId: nat)

  datatype Deployment = Deployment(appId: nat, state: State)

  /** What activation is about to do: saved before any cluster write, never changed. */
  datatype Intent = Intent(cfg: Config, gate: Gate, pred: Target)

  datatype SavedGate = Empty | RecoveryId(r: Req) | Token(gate: Gate)

  datatype Checkpoint = Checkpoint(stage: Stage, intent: Intent, saved: SavedGate)

  datatype AppData = AppData(
    row: Option<AppRow>,
    requests: map<Req, Request>,
    bindings: map<Req, Binding>,
    deployments: map<nat, Deployment>,
    withdrawals: set<Req>,
    checkpoints: map<Req, Checkpoint>,
    route: Option<nat>)

  // ---------------------------------------------------------------- queries

  predicate Pend(d: AppData, r: Req) {
    r in d.requests && d.requests[r].state.Pending?
  }

  predicate Ended(d: AppData, r: Req, o: Outcome) {
    r in d.requests && d.requests[r].state == Done(o)
  }

  predicate At(d: AppData, r: Req, stage: Stage) {
    r in d.checkpoints && d.checkpoints[r].stage == stage
  }

  ghost predicate NoPending(d: AppData) {
    forall r :: !Pend(d, r)
  }

  function Rank(stage: Stage): nat {
    match stage
    case Prepared => 0
    case Fenced => 1
    case Activated => 2
    case Recovering => 3
    case Withdrawn => 4
  }

  // ----------------------------------------------------------- transactions

  predicate Live(row: Option<AppRow>) {
    row.Some? && !row.value.deleted
  }

  /** The saved predecessor must have the candidate's port, except for a withdrawal. */
  predicate PredecessorAdmits(row: Option<AppRow>, cfg: Config, withdrawal: bool) {
    Live(row) ==> withdrawal || row.value.desired.port == cfg.port
  }

  predicate Busy(d: AppData) {
    exists r :: r in d.requests && Pend(d, r)
  }

  /** Begin and BeginWithdrawal. `free` is the verdict of domain admission. */
  function BeginTx(d: AppData, r: Req, cfg: Config, report: bool, appId: nat, depId: nat,
                   free: bool, withdrawal: bool): Option<AppData>
  {
    if r in d.bindings then
      if r !in d.requests || d.requests[r].cfg != cfg || d.requests[r].report != report then None
      else if withdrawal && Pend(d, r) then Some(d.(withdrawals := d.withdrawals + {r}))
      else Some(d)
    else if Busy(d) || r in d.requests || (!withdrawal && !free)
            || !PredecessorAdmits(d.row, cfg, withdrawal) || depId in d.deployments then None
    else
      var row := if d.row.Some? then d.row.value else AppRow(appId, cfg, true);
      var request := Request(Pending, cfg, report, if Live(d.row) then d.row else None, None);
      Some(d.(row := Some(row),
              requests := d.requests[r := request],
              bindings := d.bindings[r := Binding(row.id, depId)],
              deployments := d.deployments[depId := Deployment(row.id, Pending)],
              withdrawals := if withdrawal then d.withdrawals + {r} else d.withdrawals))
  }

  /** SaveActivationIntent: create once, accept only the identical intent again. */
  function SaveIntentTx(d: AppData, r: Req, intent: Intent): Option<AppData> {
    if !Pend(d, r) then None
    else if r in d.checkpoints then
      if d.checkpoints[r].intent == intent then Some(d) else None
    else Some(d.(checkpoints := d.checkpoints[r := Checkpoint(Prepared, intent, Empty)]))
  }

  predicate ValidTransition(expected: Stage, next: Stage) {
    match next
    case Prepared => false
    case Fenced => expected == Prepared
    case Activated => expected == Fenced
    case Recovering => expected == Prepared || expected == Fenced || expected == Activated
    case Withdrawn => expected == Recovering
  }

  /** RecordActivationGate. */
  function RecordGateTx(d: AppData, r: Req, expected: Stage, next: Stage, gate: SavedGate): Option<AppData> {
    if !Pend(d, r) || r !in d.checkpoints || At(d, r, Stage.Withdrawn) then None
    else if !ValidTransition(expected, next) || d.checkpoints[r].stage != expected then None
    else Some(d.(checkpoints := d.checkpoints[r := d.checkpoints[r].(stage := next, saved := gate)]))
  }

  function WantedStage(o: Outcome): Stage {
    match o case Applied => Activated case Withdrawn => Stage.Withdrawn
  }

  /** The application row still is the saved predecessor, or stays invisible without one. */
  predicate PredecessorHolds(row: AppRow, request: Request) {
    if request.previous.Some? then row == request.previous.value && !row.deleted else row.deleted
  }

  /** The checks Finalize makes on a pending request before it writes anything. */
  predicate Finalizable(d: AppData, r: Req, o: Outcome, expected: SavedGate) {
    && Pend(d, r) && r in d.bindings
    && At(d, r, WantedStage(o)) && d.checkpoints[r].saved == expected
    && d.checkpoints[r].intent.cfg == d.requests[r].cfg
    && d.row.Some? && d.row.value.id == d.bindings[r].appId
    && PredecessorHolds(d.row.value, d.requests[r])
    && d.bindings[r].depId in d.deployments
    && d.deployments[d.bindings[r].depId] == Deployment(d.row.value.id, Pending)
  }

  function FinalRow(row: AppRow, cfg: Config, o: Outcome): AppRow {
    if o.Applied? then row.(desired := cfg, deleted := false) else row
  }

  function FinalRoute(d: AppData, request: Request, o: Outcome): Option<nat> {
    if o.Applied? then request.cfg.domain
    else if request.previous.Some? then d.route
    else None
  }

  function FinalReply(d: AppData, r: Req, o: Outcome): Reply
    requires r in d.requests && d.row.Some?
  {
    Reply(FinalRow(d.row.value, d.requests[r].cfg, o), o, d.requests[r].cfg)
  }

  /** Finalize: app, deployment, route and receipt in one commit, or the stored receipt again. */
  function FinalizeTx(d: AppData, r: Req, o: Outcome, expected: SavedGate): Option<(AppData, Reply)> {
    if r in d.requests && r in d.bindings && d.requests[r].state.Done? then
      if d.requests[r].state == Done(o) && d.requests[r].reply.Some?
      then Some((d, d.requests[r].reply.value)) else None
    else if !Finalizable(d, r, o, expected) then None
    else
      var reply := FinalReply(d, r, o);
      var request := d.requests[r];
      Some((d.(row := Some(reply.app),
               requests := d.requests[r := request.(state := Done(o), reply := Some(reply))],
               deployments := d.deployments[d.bindings[r].depId := Deployment(d.row.value.id, Done(o))],
               route := FinalRoute(d, request, o)),
            reply))
  }

  function DeleteRoutesTx(d: AppData): AppData {
    d.(route := None)
  }

  function MarkDeletedTx(d: AppData): AppData {
    d.(row := if d.row.Some? then Some(d.row.value.(deleted := true)) else None)
  }

  // -------------------------------------------------------------- invariant

  ghost predicate KeysOK(d: AppData) {
    && d.requests.Keys == d.bindings.Keys
    && d.checkpoints.Keys <= d.requests.Keys
    && d.withdrawals <= d.requests.Keys
  }

  ghost predicate OnePending(d: AppData) {
    forall r, q :: Pend(d, r) && Pend(d, q) ==> r == q
  }

  /** A bound request and its deployment row always carry the same state. */
  ghost predicate BoundOK(d: AppData, r: Req)
    requires r in d.requests && r in d.bindings
  {
    && d.row.Some? && d.bindings[r].appId == d.row.value.id
    && d.bindings[r].depId in d.deployments
    && d.deployments[d.bindings[r].depId] == Deployment(d.row.value.id, d.requests[r].state)
  }

  ghost predicate RequestOK(d: AppData, r: Req)
    requires r in d.requests
  {
    var q := d.requests[r];
    && (q.state.Pending? <==> q.reply.None?)
    && (q.state.Pending? ==> d.row.Some? && PredecessorHolds(d.row.value, q))
    && (q.state.Done? ==> At(d, r, WantedStage(q.state.outcome)))
    && (q.state == Done(Applied) ==> r !in d.withdrawals)
    && (r in d.checkpoints ==> d.checkpoints[r].intent.cfg == q.cfg)
  }

  ghost predicate DistinctDeployments(d: AppData) {
    forall r, q :: r in d.bindings && q in d.bindings && r != q ==> d.bindings[r].depId != d.bindings[q].depId
  }

  /** The database invariant over every run of the candidate protocol. */
  ghost predicate DbInv(d: AppData) {
    && KeysOK(d)
    && OnePending(d)
    && DistinctDeployments(d)
    && (forall r :: r in d.requests ==> BoundOK(d, r))
    && (forall r :: r in d.requests ==> RequestOK(d, r))
  }

  lemma BeginKeepsDbInv(d: AppData, r: Req, cfg: Config, report: bool, appId: nat, depId: nat,
                        free: bool, withdrawal: bool)
    requires DbInv(d)
    requires BeginTx(d, r, cfg, report, appId, depId, free, withdrawal).Some?
    ensures DbInv(BeginTx(d, r, cfg, report, appId, depId, free, withdrawal).value)
  {
    var e := BeginTx(d, r, cfg, report, appId, depId, free, withdrawal).value;
    if r !in d.bindings {
      forall q | q in e.requests ensures BoundOK(e, q) && RequestOK(e, q) {
        if q != r {
          assert BoundOK(d, q) && RequestOK(d, q);
          assert !Pend(d, q);
        }
      }
      forall q1, q2 | Pend(e, q1) && Pend(e, q2) ensures q1 == q2 {
        assert q1 != r ==> Pend(d, q1);
        assert q2 != r ==> Pend(d, q2);
      }
      forall q1, q2 | q1 in e.bindings && q2 in e.bindings && q1 != q2
        ensures e.bindings[q1].depId != e.bindings[q2].depId
      {
        assert q1 != r ==> BoundOK(d, q1);
        assert q2 != r ==> BoundOK(d, q2);
      }
    } else {
      forall q | q in e.requests ensures BoundOK(e, q) && RequestOK(e, q) {
        assert BoundOK(d, q) && RequestOK(d, q);
      }
      assert forall q :: Pend(e, q) <==> Pend(d, q);
    }
  }

  lemma WithdrawalKeepsDbInv(d: AppData, r: Req)
    requires DbInv(d) && Pend(d, r)
    ensures DbInv(d.(withdrawals := d.withdrawals + {r}))
  {
    var e := d.(withdrawals := d.withdrawals + {r});
    forall q | q in e.requests ensures BoundOK(e, q) && RequestOK(e, q) {
      assert BoundOK(d, q) && RequestOK(d, q);
    }
    assert forall q :: Pend(e, q) <==> Pend(d, q);
  }

  lemma SaveIntentKeepsDbInv(d: AppData, r: Req, intent: Intent)
    requires DbInv(d)
    requires Pend(d, r) ==> intent.cfg == d.requests[r].cfg
    requires SaveIntentTx(d, r, intent).Some?
    ensures DbInv(SaveIntentTx(d, r, intent).value)
  {
    var e := SaveIntentTx(d, r, intent).value;
    forall q | q in e.requests ensures BoundOK(e, q) && RequestOK(e, q) {
      assert BoundOK(d, q) && RequestOK(d, q);
    }
    assert forall q :: Pend(e, q) <==> Pend(d, q);
  }

  lemma RecordGateKeepsDbInv(d: AppData, r: Req, expected: Stage, next: Stage, gate: SavedGate)
    requires DbInv(d)
    requires RecordGateTx(d, r, expected, next, gate).Some?
    ensures DbInv(RecordGateTx(d, r, expected, next, gate).value)
  {
    var e := RecordGateTx(d, r, expected, next, gate).value;
    forall q | q in e.requests ensures BoundOK(e, q) && RequestOK(e, q) {
      assert BoundOK(d, q) && RequestOK(d, q);
    }
    assert forall q :: Pend(e, q) <==> Pend(d, q);
  }

  lemma FinalizeKeepsDbInv(d: AppData, r: Req, o: Outcome, expected: SavedGate)
    requires DbInv(d)
    requires o.Applied? && Pend(d, r) ==> r !in d.withdrawals
    requires FinalizeTx(d, r, o, expected).Some?
    ensures DbInv(FinalizeTx(d, r, o, expected).value.0)
  {
    var e := FinalizeTx(d, r, o, expected).value.0;
    if Pend(d, r) {
      forall q | q in e.requests ensures BoundOK(e, q) && RequestOK(e, q) {
        assert BoundOK(d, q) && RequestOK(d, q);
        if q != r {
          assert !Pend(d, q);
        }
      }
      assert forall q :: Pend(e, q) ==> Pend(d, q);
    }
  }

  lemma MarkDeletedKeepsDbInv(d: AppData)
    requires DbInv(d) && NoPending(d)
    ensures DbInv(MarkDeletedTx(d))
  {
    var e := MarkDeletedTx(d);
    forall q | q in e.requests ensures BoundOK(e, q) && RequestOK(e, q) {
      assert BoundOK(d, q) && RequestOK(d, q) && !Pend(d, q);
    }
    assert forall q :: Pend(e, q) <==> Pend(d, q);
  }

  lemma DeleteRoutesKeepsDbInv(d: AppData)
    requires DbInv(d)
    ensures DbInv(DeleteRoutesTx(d))
  {
    var e := DeleteRoutesTx(d);
    forall q | q in e.requests ensures BoundOK(e, q) && RequestOK(e, q) {
      assert BoundOK(d, q) && RequestOK(d, q);
    }
    assert forall q :: Pend(e, q) <==> Pend(d, q);
  }
}
