/** The reference-counted per-application mutation lock, as interleaved steps of any number of
    callers. A step is one region under the mutex, or one operation on a lock's one-slot channel. */
module MutationLock {
  type App = nat
  type Caller = nat
  type LockId = nat

  /** One allocated lock object: the number of its users and whether its channel slot is full. */
  datatype Lock = Lock(users: int, full: bool)

  /** Where a caller is between entering acquire and having forgotten the lock. */
  datatype Phase =
    | Outside
    | Waiting(app: App, id: LockId)
    | Holding(app: App, id: LockId)
    | Leaving(app: App, id: LockId)

  /** `heap` holds every lock object ever allocated; `apps` is the shared map. */
  datatype Locks = Locks(apps: map<App, LockId>, heap: seq<Lock>, callers: map<Caller, Phase>)

  datatype Step =
    | Enter(app: App)   // under the mutex: find or create the lock, count one user more
    | Send              // the channel accepts the caller's value
    | Cancel            // the caller's context ends first
    | Receive           // release empties the channel
    | Forget            // under the mutex: count one user less, drop the entry at zero

  function PhaseOf(s: Locks, c: Caller): Phase {
    if c in s.callers then s.callers[c] else Outside
  }

  predicate CanStep(s: Locks, c: Caller, step: Step) {
    match step
    case Enter(app) => PhaseOf(s, c).Outside? && (app in s.apps ==> s.apps[app] < |s.heap|)
    case Send => PhaseOf(s, c).Waiting? && PhaseOf(s, c).id < |s.heap| && !s.heap[PhaseOf(s, c).id].full
    case Cancel => PhaseOf(s, c).Waiting?
    case Receive => PhaseOf(s, c).Holding? && PhaseOf(s, c).id < |s.heap| && s.heap[PhaseOf(s, c).id].full
    case Forget => PhaseOf(s, c).Leaving? && PhaseOf(s, c).id < |s.heap|
  }

  function Next(s: Locks, c: Caller, step: Step): Locks
    requires CanStep(s, c, step)
  {
    var p := PhaseOf(s, c);
    match step
    case Enter(app) =>
      if app in s.apps then
        var id := s.apps[app];
        s.(heap := s.heap[id := s.heap[id].(users := s.heap[id].users + 1)],
           callers := s.callers[c := Waiting(app, id)])
      else
        Locks(s.apps[app := |s.heap|], s.heap + [Lock(1, false)], s.callers[c := Waiting(app, |s.heap|)])
    case Send =>
      s.(heap := s.heap[p.id := s.heap[p.id].(full := true)], callers := s.callers[c := Holding(p.app, p.id)])
    case Cancel => s.(callers := s.callers[c := Leaving(p.app, p.id)])
    case Receive =>
      s.(heap := s.heap[p.id := s.heap[p.id].(full := false)], callers := s.callers[c := Leaving(p.app, p.id)])
    case Forget =>
      var users := s.heap[p.id].users - 1;
      Locks(if users == 0 then s.apps - {p.app} else s.apps,
            s.heap[p.id := s.heap[p.id].(users := users)], s.callers[c := Outside])
  }

  // -------------------------------------------------------------- invariant

  predicate Uses(s: Locks, c: Caller, app: App) {
    c in s.callers && !s.callers[c].Outside? && s.callers[c].app == app
  }

  function Users(s: Locks, app: App): set<Caller> {
    set c | c in s.callers && Uses(s, c, app)
  }

  /** Whoever uses an application's lock uses the object the map holds. */
  ghost predicate Shared(s: Locks) {
    forall c, app :: Uses(s, c, app) ==> app in s.apps && s.callers[c].id == s.apps[app]
  }

  /** Every entry names an object of its own, with at least one user, all of them counted. */
  ghost predicate Counted(s: Locks) {
    && (forall app :: app in s.apps ==>
          s.apps[app] < |s.heap| && s.heap[s.apps[app]].users == |Users(s, app)| > 0)
    && (forall app, other :: app in s.apps && other in s.apps && app != other ==> s.apps[app] != s.apps[other])
  }

  /** The slot is full exactly while one caller holds the lock. */
  ghost predicate Exclusive(s: Locks) {
    && (forall c, d ::
          PhaseOf(s, c).Holding? && PhaseOf(s, d).Holding? && s.callers[c].app == s.callers[d].app ==> c == d)
    && (forall c :: PhaseOf(s, c).Holding? && s.callers[c].id < |s.heap| ==> s.heap[s.callers[c].id].full)
    && (forall app :: app in s.apps && s.apps[app] < |s.heap| && s.heap[s.apps[app]].full ==>
          exists c :: PhaseOf(s, c) == Holding(app, s.apps[app]))
  }

  ghost predicate Inv(s: Locks) {
    Shared(s) && Counted(s) && Exclusive(s)
  }

  const Start := Locks(map[], [], map[])

  lemma UsersMoved(s: Locks, t: Locks, c: Caller, app: App)
    requires t.callers == s.callers[c := PhaseOf(t, c)]
    ensures Users(t, app) == if Uses(t, c, app) then Users(s, app) + {c} else Users(s, app) - {c}
  {
  }

  lemma EnterOldKeepsCounted(s: Locks, c: Caller, app: App)
    requires Shared(s) && Counted(s) && CanStep(s, c, Enter(app)) && app in s.apps
    ensures Shared(Next(s, c, Enter(app))) && Counted(Next(s, c, Enter(app)))
  {
    var t := Next(s, c, Enter(app));
    forall a | a in t.apps ensures t.heap[t.apps[a]].users == |Users(t, a)| > 0 {
      UsersMoved(s, t, c, a);
      if a != app {
        assert Users(t, a) == Users(s, a);
      }
    }
  }

  lemma EnterNewKeepsCounted(s: Locks, c: Caller, app: App)
    requires Shared(s) && Counted(s) && CanStep(s, c, Enter(app)) && app !in s.apps
    ensures Shared(Next(s, c, Enter(app))) && Counted(Next(s, c, Enter(app)))
  {
    var t := Next(s, c, Enter(app));
    forall d ensures !Uses(s, d, app) {
    }
    UsersMoved(s, t, c, app);
    assert Users(t, app) == {c};
    forall a | a in s.apps ensures Users(t, a) == Users(s, a) {
      UsersMoved(s, t, c, a);
    }
  }

  lemma StayKeepsCounted(s: Locks, c: Caller, step: Step)
    requires Shared(s) && Counted(s) && CanStep(s, c, step) && (step.Send? || step.Cancel? || step.Receive?)
    ensures Shared(Next(s, c, step)) && Counted(Next(s, c, step))
  {
    var t := Next(s, c, step);
    assert Uses(s, c, s.callers[c].app);
    forall a | a in t.apps ensures Users(t, a) == Users(s, a) {
      UsersMoved(s, t, c, a);
    }
  }

  lemma ForgetKeepsCounted(s: Locks, c: Caller)
    requires Shared(s) && Counted(s) && CanStep(s, c, Forget)
    ensures Shared(Next(s, c, Forget)) && Counted(Next(s, c, Forget))
  {
    var t := Next(s, c, Forget);
    var app := s.callers[c].app;
    assert Uses(s, c, app) && c in Users(s, app);
    UsersMoved(s, t, c, app);
    assert |Users(t, app)| == |Users(s, app)| - 1;
    forall d, a | Uses(t, d, a) ensures a in t.apps && t.callers[d].id == t.apps[a] {
      assert Uses(s, d, a);
      if a == app {
        assert d in Users(t, app);
      }
    }
    forall a | a in t.apps
      ensures t.apps[a] < |t.heap| && t.heap[t.apps[a]].users == |Users(t, a)| > 0
    {
      UsersMoved(s, t, c, a);
      if a != app {
        assert Users(t, a) == Users(s, a);
      }
    }
  }

  lemma EnterKeepsExclusive(s: Locks, c: Caller, app: App)
    requires Inv(s) && CanStep(s, c, Enter(app))
    ensures Exclusive(Next(s, c, Enter(app)))
  {
    var t := Next(s, c, Enter(app));
    assert forall d :: PhaseOf(t, d).Holding? ==> PhaseOf(s, d) == PhaseOf(t, d) && Uses(s, d, s.callers[d].app);
    forall a | a in t.apps && t.heap[t.apps[a]].full ensures exists d :: PhaseOf(t, d) == Holding(a, t.apps[a]) {
      assert a in s.apps && s.heap[s.apps[a]].full;
      var d :| PhaseOf(s, d) == Holding(a, s.apps[a]);
      assert PhaseOf(t, d) == Holding(a, t.apps[a]);
    }
  }

  lemma SendKeepsExclusive(s: Locks, c: Caller)
    requires Inv(s) && CanStep(s, c, Send)
    ensures Exclusive(Next(s, c, Send))
  {
    var t := Next(s, c, Send);
    var app := s.callers[c].app;
    assert Uses(s, c, app);
    forall d | d != c && PhaseOf(t, d).Holding? ensures t.callers[d].app != app {
      assert PhaseOf(s, d) == PhaseOf(t, d) && Uses(s, d, s.callers[d].app);
    }
    forall a | a in t.apps && t.heap[t.apps[a]].full ensures exists d :: PhaseOf(t, d) == Holding(a, t.apps[a]) {
      if a == app {
        assert PhaseOf(t, c) == Holding(a, t.apps[a]);
      } else {
        var d :| PhaseOf(s, d) == Holding(a, s.apps[a]);
        assert PhaseOf(t, d) == Holding(a, t.apps[a]);
      }
    }
  }

  /** Steps after which nobody new holds the lock. */
  lemma LeaveKeepsExclusive(s: Locks, c: Caller, step: Step)
    requires Inv(s) && CanStep(s, c, step) && (step.Cancel? || step.Receive? || step.Forget?)
    ensures Exclusive(Next(s, c, step))
  {
    var t := Next(s, c, step);
    var app := s.callers[c].app;
    assert Uses(s, c, app);
    forall d | PhaseOf(t, d).Holding?
      ensures t.callers[d].id < |t.heap| ==> t.heap[t.callers[d].id].full
    {
      assert d != c && PhaseOf(s, d) == PhaseOf(t, d) && Uses(s, d, s.callers[d].app);
    }
    forall a | a in t.apps && t.heap[t.apps[a]].full ensures exists d :: PhaseOf(t, d) == Holding(a, t.apps[a]) {
      assert s.heap[s.apps[a]].full;
      var d :| PhaseOf(s, d) == Holding(a, s.apps[a]);
      assert PhaseOf(t, d) == Holding(a, t.apps[a]);
    }
  }

  lemma StepKeepsInv(s: Locks, c: Caller, step: Step)
    requires Inv(s) && CanStep(s, c, step)
    ensures Inv(Next(s, c, step))
  {
    match step
    case Enter(app) =>
      if app in s.apps {
        EnterOldKeepsCounted(s, c, app);
      } else {
        EnterNewKeepsCounted(s, c, app);
      }
      EnterKeepsExclusive(s, c, app);
    case Send => StayKeepsCounted(s, c, step); SendKeepsExclusive(s, c);
    case Cancel => StayKeepsCounted(s, c, step); LeaveKeepsExclusive(s, c, step);
    case Receive => StayKeepsCounted(s, c, step); LeaveKeepsExclusive(s, c, step);
    case Forget => ForgetKeepsCounted(s, c); LeaveKeepsExclusive(s, c, step);
  }

  // ------------------------------------------------------------------- runs

  datatype Event = Event(c: Caller, step: Step)

  predicate ValidRun(s: Locks, run: seq<Event>)
    decreases |run|
  {
    run == [] || (CanStep(s, run[0].c, run[0].step) && ValidRun(Next(s, run[0].c, run[0].step), run[1..]))
  }

  function Exec(s: Locks, run: seq<Event>): Locks
    requires ValidRun(s, run)
    decreases |run|
  {
    if run == [] then s else Exec(Next(s, run[0].c, run[0].step), run[1..])
  }

  lemma {:induction false} RunKeepsInv(s: Locks, run: seq<Event>)
    requires Inv(s) && ValidRun(s, run)
    ensures Inv(Exec(s, run))
    decreases |run|
  {
    if run != [] {
      StepKeepsInv(s, run[0].c, run[0].step);
      RunKeepsInv(Next(s, run[0].c, run[0].step), run[1..]);
    }
  }

  /** However callers interleave and cancel, at most one holds an application's lock. */
  lemma MutualExclusion(run: seq<Event>, c: Caller, d: Caller)
    requires ValidRun(Start, run)
    requires PhaseOf(Exec(Start, run), c).Holding? && PhaseOf(Exec(Start, run), d).Holding?
    requires PhaseOf(Exec(Start, run), c).app == PhaseOf(Exec(Start, run), d).app
    ensures c == d
  {
    RunKeepsInv(Start, run);
  }

  /** Overlapping callers of one application share one lock object, callers of different applications
      never do; the counter is the number of holders, waiters and releases in progress; and the map has an
      entry exactly while there is such a caller. */
  lemma EntriesAreCounted(run: seq<Event>, app: App)
    requires ValidRun(Start, run)
    ensures var s := Exec(Start, run);
            && (app in s.apps <==> Users(s, app) != {})
            && (app in s.apps ==> s.apps[app] < |s.heap| && s.heap[s.apps[app]].users == |Users(s, app)|)
            && (forall c, d :: c in Users(s, app) && d in s.callers && !s.callers[d].Outside? ==>
                  (s.callers[c].id == s.callers[d].id <==> d in Users(s, app)))
  {
    RunKeepsInv(Start, run);
    var s := Exec(Start, run);
    forall c | c in Users(s, app) ensures app in s.apps && s.callers[c].id == s.apps[app] {
      assert Uses(s, c, app);
    }
    forall d | d in s.callers && !s.callers[d].Outside?
      ensures s.callers[d].app in s.apps && s.callers[d].id == s.apps[s.callers[d].app]
    {
      assert Uses(s, d, s.callers[d].app);
    }
  }

  ghost predicate Held(s: Locks, app: App) {
    exists d :: PhaseOf(s, d).Holding? && s.callers[d].app == app
  }

  lemma WaiterBlocked(s: Locks, c: Caller)
    requires Inv(s) && PhaseOf(s, c).Waiting?
    ensures CanStep(s, c, Send) <==> !Held(s, s.callers[c].app)
  {
    var app := s.callers[c].app;
    assert Uses(s, c, app);
    if s.heap[s.apps[app]].full {
      var d :| PhaseOf(s, d) == Holding(app, s.apps[app]);
      assert Held(s, app);
    } else if Held(s, app) {
      var d :| PhaseOf(s, d).Holding? && s.callers[d].app == app;
      assert Uses(s, d, app);
    }
  }

  /** A release never blocks, and a waiter is blocked only by a holder of the same application. */
  lemma NoLostWakeup(run: seq<Event>, c: Caller)
    requires ValidRun(Start, run)
    ensures var s := Exec(Start, run);
            && (PhaseOf(s, c).Holding? ==> CanStep(s, c, Receive))
            && (PhaseOf(s, c).Waiting? ==> (CanStep(s, c, Send) <==> !Held(s, s.callers[c].app)))
  {
    RunKeepsInv(Start, run);
    var s := Exec(Start, run);
    if PhaseOf(s, c).Waiting? {
      WaiterBlocked(s, c);
    } else if PhaseOf(s, c).Holding? {
      assert Uses(s, c, s.callers[c].app);
    }
  }
}
