/** What the two transactions that open and close a request do to the tables, in every reachable state, said
    row by row. */
module Laws {
  import opened Types
  import opened Store
  import opened Machine
  import opened Invariant
  import opened Runs
  import opened Safety

  // ------------------------------------------------------------------- begin

  /** Every request is terminal. */
  predicate NothingOpen(d: AppData) {
    forall q :: q in d.requests ==> d.requests[q].state.Done?
  }

  /** A begin for a request that is journalled already. */
  lemma BeginKnown(s: Sys, a: Action, r: Req)
    requires KeysOK(s.db) && Enabled(s, a) && a.Begin? && s.pc.r == r && r in s.db.requests
    ensures s.db.requests[r].cfg != s.pc.cfg || s.db.requests[r].report != s.pc.report ==> Next(s, a) == s.(pc := Idle)
    ensures s.db.requests[r].cfg == s.pc.cfg && s.db.requests[r].report == s.pc.report ==>
              var noted := if s.pc.withdraw && s.db.requests[r].state.Pending? then {r} else {};
              && Next(s, a) == s.(db := s.db.(withdrawals := s.db.withdrawals + noted), pc := Next(s, a).pc)
              && Next(s, a).pc ==
                   if s.db.requests[r].state.Done? then
                     (if !s.pc.withdraw && s.db.requests[r].state.outcome.Applied? then Reclaiming(r) else Idle)
                   else if s.pc.withdraw then
                     (if r in s.db.checkpoints then Restoring(r) else Preparing(r, true))
                   else if r in s.db.withdrawals then Idle
                   else if r in s.db.checkpoints then Advancing(r)
                   else Preparing(r, false)
  {
  }

  /** A begin for a new request. */
  lemma BeginNew(s: Sys, a: Action, r: Req)
    requires KeysOK(s.db) && Enabled(s, a) && a.Begin? && s.pc.r == r && r !in s.db.requests
    ensures
      var accepted :=
        && NothingOpen(s.db) && a.depId !in s.db.deployments && (s.pc.withdraw || a.free)
        && (s.pc.withdraw || s.db.row.None? || s.db.row.value.deleted
            || s.db.row.value.desired.port == s.pc.cfg.port);
      if !accepted then Next(s, a) == s.(pc := Idle)
      else
        var d, live := Next(s, a).db, s.db.row.Some? && !s.db.row.value.deleted;
        && d.row == (if s.db.row.Some? then s.db.row else Some(AppRow(a.appId, s.pc.cfg, true)))
        && d.requests == s.db.requests[
             r := Request(Pending, s.pc.cfg, s.pc.report, if live then s.db.row else None, None)]
        && d.bindings == s.db.bindings[r := Binding(d.row.value.id, a.depId)]
        && d.deployments == s.db.deployments[a.depId := Deployment(d.row.value.id, Pending)]
        && d.withdrawals == s.db.withdrawals + (if s.pc.withdraw then {r} else {})
        && d.checkpoints == s.db.checkpoints && d.route == s.db.route
        && Next(s, a) == s.(db := d, pc := Preparing(r, s.pc.withdraw))
  {
    assert Busy(s.db) <==> !NothingOpen(s.db);
  }

  /** In every reachable state, whoever begins: afterwards the row of the request carries exactly the configuration
      and the flag that were asked for, or no table changed and the caller was turned away. */
  lemma BeginIsFaithful(s0: Sys, acts: seq<Action>, a: Action)
    requires Init(s0) && ValidRun(s0, acts) && a.Begin? && Enabled(Exec(s0, acts), a)
    ensures var s := Exec(s0, acts);
            BeginsFaithfully(s, Next(s, a), s.pc.r, s.pc.cfg, s.pc.report, s.pc.withdraw)
  {
    InitInv(s0);
    RunKeepsInv(s0, acts);
    var s := Exec(s0, acts);
    StepBegins(s, a, s.pc.r);
  }

  /** What one begin may do to the rows, whatever the answer. */
  predicate BeginsFaithfully(s: Sys, t: Sys, r: Req, cfg: Config, report: bool, withdraw: bool) {
    && (t == s.(pc := Idle) || (r in t.db.requests && t.db.requests[r].cfg == cfg && t.db.requests[r].report == report))
    && (forall q :: q in s.db.requests ==> q in t.db.requests && t.db.requests[q] == s.db.requests[q])
    && (forall q :: q in t.db.requests && q !in s.db.requests ==> q == r)
    && (forall q :: q in t.db.withdrawals && q !in s.db.withdrawals ==> q == r && withdraw)
    && t.db.route == s.db.route && t.db.checkpoints == s.db.checkpoints
  }

  lemma StepBegins(s: Sys, a: Action, r: Req)
    requires KeysOK(s.db) && Enabled(s, a) && a.Begin? && s.pc.r == r
    ensures BeginsFaithfully(s, Next(s, a), r, s.pc.cfg, s.pc.report, s.pc.withdraw)
  {
    if r in s.db.requests {
      BeginKnown(s, a, r);
    } else {
      BeginNew(s, a, r);
    }
  }

  // ------------------------------------------------------------------- commit

  /** The rows before and after a request ended. */
  predicate EndsFaithfully(d: AppData, e: AppData, r: Req) {
    && r in d.requests && r in e.requests && r in d.bindings && d.row.Some? && e.row.Some?
    && e.requests[r].state.Done?
    && var request, o := d.requests[r], e.requests[r].state.outcome;
       && e.requests == d.requests[r := request.(state := Done(o), reply := e.requests[r].reply)]
       && e.requests[r].reply == Some(Reply(e.row.value, o, request.cfg))
       && e.deployments == d.deployments[d.bindings[r].depId := Deployment(d.row.value.id, Done(o))]
       && e.bindings == d.bindings && e.withdrawals == d.withdrawals && e.checkpoints == d.checkpoints
       && (o.Applied? ==> e.row.value == AppRow(d.row.value.id, request.cfg, false) && e.route == request.cfg.domain)
       && (o.Withdrawn? ==> e.row == d.row && e.route == (if request.previous.Some? then d.route else None))
  }

  lemma CommitIsFaithful(s: Sys, r: Req)
    requires Enabled(s, Commit) && Pend(s.db, r) && !Pend(Next(s, Commit).db, r)
    ensures EndsFaithfully(s.db, Next(s, Commit).db, r)
  {
  }

  /** In every reachable state, when a step ends a request: its receipt has the committed outcome, the committed row
      and the requested configuration; an applied request sets row and route to what it asked for; a withdrawn
      one leaves row and route to the predecessor, and no route if there was none; and no other row moves. */
  lemma ReceiptIsFaithful(s0: Sys, acts: seq<Action>, a: Action, r: Req)
    requires Init(s0) && ValidRun(s0, acts) && Enabled(Exec(s0, acts), a)
    requires Pend(Exec(s0, acts).db, r) && !Pend(Next(Exec(s0, acts), a).db, r)
    ensures EndsFaithfully(Exec(s0, acts).db, Next(Exec(s0, acts), a).db, r)
  {
    InitInv(s0);
    RunKeepsInv(s0, acts);
    OnlyCommitEnds(Exec(s0, acts), a, r);
    CommitIsFaithful(Exec(s0, acts), r);
  }
}
