/** Domain exclusivity across applications. The applications share one database; begin checks the
    domain inside its transaction, and a withdrawal skips that check. */
module Domains {
  import opened Types
  import opened Store
  import opened Machine
  import opened Invariant
  import opened Life
  import opened Runs

  type App = nat

  type World = map<App, Sys>

  datatype Event = Event(app: App, a: Action)

  // -------------------------------------------------------------- admission

  ghost predicate Reserves(d: AppData, dom: nat) {
    exists r :: Pend(d, r) && d.requests[r].cfg.domain == Some(dom)
  }

  /** No other application routes the domain or has any request pending for it. */
  ghost predicate DomainFree(w: World, app: App, domain: Option<nat>) {
    domain.Some? ==>
      forall other :: other in w && other != app ==>
        w[other].db.route != domain && !Reserves(w[other].db, domain.value)
  }

  datatype RouteRow = RouteRow(app: App, domain: nat)
  datatype PendingRow = PendingRow(app: App, domain: Option<nat>)

  /** The rows are what the queries on the route table and on pending requests return. */
  ghost predicate Lists(w: World, routes: seq<RouteRow>, pending: seq<PendingRow>) {
    && (forall app: App, dom: nat :: RouteRow(app, dom) in routes <==> app in w && w[app].db.route == Some(dom))
    && (forall app: App, dom: nat :: PendingRow(app, Some(dom)) in pending <==> app in w && Reserves(w[app].db, dom))
  }

  method ValidateDomainAdmission(ghost w: World, routes: seq<RouteRow>, pending: seq<PendingRow>,
                                 app: App, domain: Option<nat>)
    returns (ok: bool)
    requires Lists(w, routes, pending)
    ensures ok <==> DomainFree(w, app, domain)
  {
    if domain.None? {
      return true;
    }
    for i := 0 to |routes|
      invariant forall j :: 0 <= j < i ==> !(routes[j].domain == domain.value && routes[j].app != app)
    {
      if routes[i].domain == domain.value && routes[i].app != app {
        assert RouteRow(routes[i].app, domain.value) in routes;
        return false;
      }
    }
    for i := 0 to |pending|
      invariant forall j :: 0 <= j < i ==> pending[j].app == app || pending[j].domain != domain
    {
      if pending[i].app != app && pending[i].domain == domain {
        assert PendingRow(pending[i].app, Some(domain.value)) == pending[i];
        assert Reserves(w[pending[i].app].db, domain.value);
        return false;
      }
    }
    forall other | other in w && other != app
      ensures w[other].db.route != domain && !Reserves(w[other].db, domain.value)
    {
      assert RouteRow(other, domain.value) !in routes;
      assert PendingRow(other, Some(domain.value)) !in pending;
    }
    return true;
  }

  // ------------------------------------------------------------- global runs

  ghost predicate CanStep(w: World, e: Event) {
    && e.app in w && Enabled(w[e.app], e.a)
    && (e.a.Begin? ==> e.a.free == DomainFree(w, e.app, w[e.app].pc.cfg.domain))
  }

  ghost function Step(w: World, e: Event): World
    requires CanStep(w, e)
  {
    w[e.app := Next(w[e.app], e.a)]
  }

  ghost predicate ValidEvents(w: World, es: seq<Event>)
    decreases |es|
  {
    es == [] || (CanStep(w, es[0]) && ValidEvents(Step(w, es[0]), es[1..]))
  }

  ghost function ExecEvents(w: World, es: seq<Event>): World
    requires ValidEvents(w, es)
    decreases |es|
  {
    if es == [] then w else ExecEvents(Step(w, es[0]), es[1..])
  }

  /** Before the first candidate request, with no domain routed twice. */
  ghost predicate InitWorld(w: World) {
    && (forall app :: app in w ==> Init(w[app]))
    && (forall app, other :: app in w && other in w && app != other && w[app].db.route.Some? ==>
          w[app].db.route != w[other].db.route)
  }

  // ------------------------------------------------------------------ claims

  /** The application routes the domain, or a pending request without withdrawal decision will. */
  ghost predicate Claims(d: AppData, dom: nat) {
    || d.route == Some(dom)
    || exists r :: Pend(d, r) && r !in d.withdrawals && d.requests[r].cfg.domain == Some(dom)
  }

  ghost predicate WorldInv(w: World) {
    && (forall app :: app in w ==> Inv(w[app]))
    && (forall app, other, dom :: app in w && other in w && app != other && Claims(w[app].db, dom) ==>
          !Claims(w[other].db, dom))
  }

  /** Begin claims a new domain only through admission; a withdrawal claims nothing. */
  lemma BeginClaims(d: AppData, r: Req, cfg: Config, report: bool, appId: nat, depId: nat,
                    free: bool, withdrawal: bool, dom: nat)
    requires KeysOK(d)
    requires BeginTx(d, r, cfg, report, appId, depId, free, withdrawal).Some?
    requires Claims(BeginTx(d, r, cfg, report, appId, depId, free, withdrawal).value, dom)
    ensures Claims(d, dom) || (free && cfg.domain == Some(dom))
  {
    var e := BeginTx(d, r, cfg, report, appId, depId, free, withdrawal).value;
    if e.route != Some(dom) {
      var q :| Pend(e, q) && q !in e.withdrawals && e.requests[q].cfg.domain == Some(dom);
      if q != r || r in d.bindings {
        assert Pend(d, q) && q !in d.withdrawals;
      }
    }
  }

  /** A commit routes a domain only if its own pending request had claimed it. */
  lemma CommitClaims(s: Sys, dom: nat)
    requires DbInv(s.db) && PcInv(s) && Enabled(s, Commit)
    requires Claims(Next(s, Commit).db, dom)
    ensures Claims(s.db, dom)
  {
    if Next(s, Commit).db != s.db {
      FinalizeClaims(s.db, s.pc.r, s.pc.o, s.db.checkpoints[s.pc.r].saved, dom);
    }
  }

  lemma FinalizeClaims(d: AppData, r: Req, o: Outcome, expected: SavedGate, dom: nat)
    requires FinalizeTx(d, r, o, expected).Some? && Claims(FinalizeTx(d, r, o, expected).value.0, dom)
    requires o.Applied? ==> r !in d.withdrawals
    ensures Claims(d, dom)
  {
    var e := FinalizeTx(d, r, o, expected).value.0;
    if e.route == Some(dom) {
      if o.Applied? && e != d {
        assert Pend(d, r) && r !in d.withdrawals;
      }
    } else {
      var q :| Pend(e, q) && q !in e.withdrawals && e.requests[q].cfg.domain == Some(dom);
      assert Pend(d, q) && q !in d.withdrawals;
    }
  }

  lemma OtherClaims(s: Sys, a: Action, dom: nat)
    requires Enabled(s, a) && !a.Begin? && a != Commit
    requires Claims(Next(s, a).db, dom)
    ensures Claims(s.db, dom)
  {
    var d, e := s.db, Next(s, a).db;
    SameRequests(s, a);
    if e.route != Some(dom) {
      var q :| Pend(e, q) && q !in e.withdrawals && e.requests[q].cfg.domain == Some(dom);
      assert Pend(d, q) && q !in d.withdrawals;
    }
  }

  lemma SameRequests(s: Sys, a: Action)
    requires Enabled(s, a) && !a.Begin? && a != Commit
    ensures Next(s, a).db.requests == s.db.requests && s.db.withdrawals <= Next(s, a).db.withdrawals
    ensures Next(s, a).db.route == s.db.route || Next(s, a).db.route.None?
  {
    if !TouchesDb(a) {
      DbUntouched(s, a);
    }
  }

  lemma StepClaims(s: Sys, a: Action, dom: nat)
    requires Inv(s) && Enabled(s, a) && Claims(Next(s, a).db, dom)
    ensures Claims(s.db, dom) || (a.Begin? && a.free && s.pc.cfg.domain == Some(dom))
  {
    if a.Begin? {
      if Next(s, a).db != s.db {
        BeginClaims(s.db, s.pc.r, s.pc.cfg, s.pc.report, a.appId, a.depId, a.free, s.pc.withdraw, dom);
      }
    } else if a == Commit {
      CommitClaims(s, dom);
    } else {
      OtherClaims(s, a, dom);
    }
  }

  lemma FreeMeansUnclaimed(w: World, app: App, other: App, dom: nat)
    requires DomainFree(w, app, Some(dom)) && other in w && other != app
    ensures !Claims(w[other].db, dom)
  {
    assert !Reserves(w[other].db, dom);
  }

  lemma StepKeepsWorld(w: World, e: Event)
    requires WorldInv(w) && CanStep(w, e)
    ensures WorldInv(Step(w, e))
  {
    var v := Step(w, e);
    StepKeepsInv(w[e.app], e.a);
    forall other, dom | other in v && other != e.app && Claims(v[e.app].db, dom)
      ensures !Claims(v[other].db, dom)
    {
      StepClaims(w[e.app], e.a, dom);
      if !Claims(w[e.app].db, dom) {
        FreeMeansUnclaimed(w, e.app, other, dom);
      }
    }
    forall app, other, dom | app in v && other in v && app != other && Claims(v[app].db, dom)
      ensures !Claims(v[other].db, dom)
    {
      if app != e.app && other != e.app {
        assert Claims(w[app].db, dom);
      }
    }
  }

  lemma {:induction false} EventsKeepWorld(w: World, es: seq<Event>)
    requires WorldInv(w) && ValidEvents(w, es)
    ensures WorldInv(ExecEvents(w, es))
    decreases |es|
  {
    if es != [] {
      StepKeepsWorld(w, es[0]);
      EventsKeepWorld(Step(w, es[0]), es[1..]);
    }
  }

  lemma InitWorldInv(w: World)
    requires InitWorld(w)
    ensures WorldInv(w)
  {
    forall app | app in w ensures Inv(w[app]) {
      InitInv(w[app]);
    }
  }

  /** In every reachable state no two applications route the same domain, and the domain of a pending
      request without withdrawal decision is neither routed nor so reserved by another application. */
  lemma DomainExclusivity(w0: World, es: seq<Event>, app: App, other: App, dom: nat)
    requires InitWorld(w0) && ValidEvents(w0, es)
    requires app in ExecEvents(w0, es) && other in ExecEvents(w0, es) && app != other
    ensures var d, e := ExecEvents(w0, es)[app].db, ExecEvents(w0, es)[other].db;
            && !(d.route == Some(dom) && e.route == Some(dom))
            && (forall r :: Pend(d, r) && r !in d.withdrawals && d.requests[r].cfg.domain == Some(dom) ==>
                  && e.route != Some(dom)
                  && forall q :: Pend(e, q) && q !in e.withdrawals ==> e.requests[q].cfg.domain != Some(dom))
  {
    InitWorldInv(w0);
    EventsKeepWorld(w0, es);
    var w := ExecEvents(w0, es);
    if Claims(w[app].db, dom) {
      assert !Claims(w[other].db, dom);
    }
  }
}
