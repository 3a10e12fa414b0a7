/** The notification state machine of the external uptime monitor. */
module Alerts {
  import opened Types

  datatype Check = Check(name: string, url: string)

  datatype MonitorConfig = MonitorConfig(checks: seq<Check>, threshold: int, repeatSeconds: int)

  /** The saved history of one check. */
  datatype Record = Record(url: string, checkedAt: int, failures: nat, notified: bool, lastSent: int)

  type State = map<string, Record>

  /** One execution as one check sees it: did the probe fail, when, and would a notice be delivered. */
  datatype Probe = Probe(error: bool, now: int, delivered: bool)

  datatype Notice = Alert(at: int) | Recovered(at: int)

  /** The history that counts: a changed endpoint starts a new one. */
  function History(state: State, check: Check): Record {
    if check.name in state && state[check.name].url == check.url then state[check.name]
    else Record(check.url, 0, 0, false, 0)
  }

  function Failures(previous: Record, p: Probe): nat {
    if p.error then previous.failures + 1 else 0
  }

  /** The notice that is due, if any. */
  function Due(cfg: MonitorConfig, previous: Record, p: Probe): Option<Notice> {
    if !p.error then (if previous.notified then Some(Recovered(p.now)) else None)
    else if Failures(previous, p) >= cfg.threshold
            && (!previous.notified || p.now - previous.lastSent >= cfg.repeatSeconds) then Some(Alert(p.now))
    else None
  }

  /** The record to save: a notice that was not delivered leaves no trace, so it is due again. */
  function Advance(cfg: MonitorConfig, previous: Record, p: Probe): Record {
    var current := previous.(checkedAt := p.now, failures := Failures(previous, p));
    var due := Due(cfg, previous, p);
    if due.Some? && p.delivered then current.(notified := due.value.Alert?, lastSent := p.now) else current
  }

  // ----------------------------------------------------------------- update

  predicate DistinctNames(checks: seq<Check>) {
    forall i, j :: 0 <= i < j < |checks| ==> checks[i].name != checks[j].name
  }

  predicate Undelivered(cfg: MonitorConfig, state: State, check: Check, probes: map<string, Probe>) {
    check.name in probes && Due(cfg, History(state, check), probes[check.name]).Some? && !probes[check.name].delivered
  }

  function FailedNames(cfg: MonitorConfig, state: State, checks: seq<Check>, probes: map<string, Probe>): seq<string> {
    if checks == [] then []
    else
      var rest := FailedNames(cfg, state, checks[..|checks| - 1], probes);
      var last := checks[|checks| - 1];
      if Undelivered(cfg, state, last, probes) then rest + [last.name] else rest
  }

  function NamesOf(checks: seq<Check>): set<string> {
    set c | c in checks :: c.name
  }

  lemma NamesOneMore(checks: seq<Check>, n: nat)
    requires n < |checks|
    ensures NamesOf(checks[..n + 1]) == NamesOf(checks[..n]) + {checks[n].name}
  {
    assert checks[..n + 1] == checks[..n] + [checks[n]];
  }

  lemma FailedOneMore(cfg: MonitorConfig, state: State, checks: seq<Check>, n: nat, probes: map<string, Probe>)
    requires n < |checks|
    ensures FailedNames(cfg, state, checks[..n + 1], probes) ==
              FailedNames(cfg, state, checks[..n], probes) +
              if Undelivered(cfg, state, checks[n], probes) then [checks[n].name] else []
  {
    assert checks[..n + 1][..n] == checks[..n];
  }

  /** `next` holds exactly the checks of the configuration, each advanced by its own probe. */
  ghost predicate Updated(cfg: MonitorConfig, state: State, probes: map<string, Probe>, next: State) {
    && next.Keys == NamesOf(cfg.checks)
    && forall i :: 0 <= i < |cfg.checks| ==>
         && cfg.checks[i].name in probes
         && next[cfg.checks[i].name] == Advance(cfg, History(state, cfg.checks[i]), probes[cfg.checks[i].name])
  }

  /** The part of the loop that concerns one check. */
  method UpdateCheck(cfg: MonitorConfig, previous: Record, p: Probe) returns (current: Record, failed: bool)
    ensures current == Advance(cfg, previous, p)
    ensures failed <==> Due(cfg, previous, p).Some? && !p.delivered
  {
    failed := false;
    current := previous.(checkedAt := p.now, failures := if p.error then previous.failures + 1 else 0);
    var shouldAlert := p.error && current.failures >= cfg.threshold;
    shouldAlert := shouldAlert && (!previous.notified || p.now - previous.lastSent >= cfg.repeatSeconds);
    var recovery := !p.error && previous.notified;
    if shouldAlert || recovery {
      if !p.delivered {
        failed := true;
      } else {
        current := current.(notified := !recovery, lastSent := p.now);
      }
    }
  }

  method Update(cfg: MonitorConfig, state: State, probes: map<string, Probe>)
    returns (next: State, failures: seq<string>)
    requires DistinctNames(cfg.checks)
    requires forall i :: 0 <= i < |cfg.checks| ==> cfg.checks[i].name in probes
    ensures Updated(cfg, state, probes, next)
    ensures failures == FailedNames(cfg, state, cfg.checks, probes)
    ensures forall i :: 0 <= i < |cfg.checks| ==>
              (cfg.checks[i].name in failures <==>
                 && !probes[cfg.checks[i].name].delivered
                 && Due(cfg, History(state, cfg.checks[i]), probes[cfg.checks[i].name]).Some?)
  {
    next, failures := map[], [];
    for n := 0 to |cfg.checks|
      invariant next.Keys == NamesOf(cfg.checks[..n])
      invariant forall i :: 0 <= i < n ==>
        next[cfg.checks[i].name] == Advance(cfg, History(state, cfg.checks[i]), probes[cfg.checks[i].name])
      invariant failures == FailedNames(cfg, state, cfg.checks[..n], probes)
    {
      var check := cfg.checks[n];
      var current, failed := UpdateCheck(cfg, History(state, check), probes[check.name]);
      if failed {
        failures := failures + [check.name];
      }
      next := next[check.name := current];
      NamesOneMore(cfg.checks, n);
      FailedOneMore(cfg, state, cfg.checks, n, probes);
    }
    assert cfg.checks[..|cfg.checks|] == cfg.checks;
    forall i | 0 <= i < |cfg.checks|
      ensures cfg.checks[i].name in failures <==> Undelivered(cfg, state, cfg.checks[i], probes)
    {
      FailedNamesAre(cfg, state, cfg.checks, i, probes);
    }
  }

  lemma {:induction false} FailedNamesAre(cfg: MonitorConfig, state: State, checks: seq<Check>, i: nat,
                                          probes: map<string, Probe>)
    requires DistinctNames(checks) && i < |checks|
    ensures checks[i].name in FailedNames(cfg, state, checks, probes) <==> Undelivered(cfg, state, checks[i], probes)
    decreases |checks|
  {
    var front := checks[..|checks| - 1];
    FailedAmong(cfg, state, front, probes);
    if i < |front| {
      FailedNamesAre(cfg, state, front, i, probes);
    }
  }

  lemma {:induction false} FailedAmong(cfg: MonitorConfig, state: State, checks: seq<Check>, probes: map<string, Probe>)
    ensures forall name :: name in FailedNames(cfg, state, checks, probes) ==>
              exists i :: 0 <= i < |checks| && checks[i].name == name
    decreases |checks|
  {
    if checks != [] {
      var front := checks[..|checks| - 1];
      FailedAmong(cfg, state, front, probes);
      forall name | name in FailedNames(cfg, state, checks, probes)
        ensures exists i :: 0 <= i < |checks| && checks[i].name == name
      {
        if name in FailedNames(cfg, state, front, probes) {
          var i :| 0 <= i < |front| && front[i].name == name;
          assert checks[i].name == name;
        } else {
          assert checks[|checks| - 1].name == name;
        }
      }
    }
  }

  // ------------------------------------------------------ histories of one check

  /** The record after a sequence of executions that began without any state. */
  function After(cfg: MonitorConfig, url: string, ps: seq<Probe>): Record {
    if ps == [] then Record(url, 0, 0, false, 0)
    else Advance(cfg, After(cfg, url, ps[..|ps| - 1]), ps[|ps| - 1])
  }

  /** The notice that execution `k` delivered. */
  function Delivered(cfg: MonitorConfig, url: string, ps: seq<Probe>, k: nat): Option<Notice>
    requires k < |ps|
  {
    if ps[k].delivered then Due(cfg, After(cfg, url, ps[..k]), ps[k]) else None
  }

  /** All notices delivered, in order. */
  function Notices(cfg: MonitorConfig, url: string, ps: seq<Probe>): seq<Notice> {
    if ps == [] then []
    else
      var rest := Notices(cfg, url, ps[..|ps| - 1]);
      var last := Delivered(cfg, url, ps, |ps| - 1);
      if last.Some? then rest + [last.value] else rest
  }

  /** The last `n` executions all saw the check fail. */
  predicate FailedThroughout(ps: seq<Probe>, n: nat) {
    n <= |ps| && forall i :: |ps| - n <= i < |ps| ==> ps[i].error
  }

  /** An alert is out: the last notice delivered was one. */
  predicate Alerted(ns: seq<Notice>) {
    ns != [] && ns[|ns| - 1].Alert?
  }

  /** The record says nothing but what the history says. */
  lemma {:induction false} RecordIsHistory(cfg: MonitorConfig, url: string, ps: seq<Probe>)
    ensures var record, ns := After(cfg, url, ps), Notices(cfg, url, ps);
            && (record.notified <==> Alerted(ns))
            && (ns != [] ==> record.lastSent == ns[|ns| - 1].at)
            && FailedThroughout(ps, record.failures)
            && (record.failures < |ps| ==> !ps[|ps| - 1 - record.failures].error)
            && record.url == url && (ps != [] ==> record.checkedAt == ps[|ps| - 1].now)
  {
    if ps != [] {
      var before := ps[..|ps| - 1];
      RecordIsHistory(cfg, url, before);
      assert ps[..|ps| - 1] == before;
    }
  }

  lemma FailedThroughoutIff(cfg: MonitorConfig, url: string, ps: seq<Probe>, n: nat)
    ensures FailedThroughout(ps, n) <==> n <= After(cfg, url, ps).failures
  {
    RecordIsHistory(cfg, url, ps);
    var f := After(cfg, url, ps).failures;
    if f < n <= |ps| {
      assert !ps[|ps| - 1 - f].error;
    }
  }

  /** Exactly when an execution sends which notice, in terms of the probes and the earlier notices. */
  lemma NoticeExactlyWhen(cfg: MonitorConfig, url: string, ps: seq<Probe>, p: Probe)
    requires cfg.threshold >= 1
    ensures
      var ns := Notices(cfg, url, ps);
      Notices(cfg, url, ps + [p]) ==
        if p.delivered && !p.error && Alerted(ns) then ns + [Recovered(p.now)]
        else if p.delivered && FailedThroughout(ps + [p], cfg.threshold)
                && (Alerted(ns) ==> p.now - ns[|ns| - 1].at >= cfg.repeatSeconds) then ns + [Alert(p.now)]
        else ns
  {
    var all := ps + [p];
    assert all[..|all| - 1] == ps && all[|all| - 1] == p;
    RecordIsHistory(cfg, url, ps);
    FailedThroughoutIff(cfg, url, all, cfg.threshold);
  }

  /** A recovery notice follows an alert at once, the first notice is an alert, and two alerts with
      no recovery between them are at least the repeat interval apart. */
  predicate Disciplined(ns: seq<Notice>, repeatSeconds: int) {
    forall i :: 0 <= i < |ns| ==>
      if ns[i].Recovered? then i > 0 && ns[i - 1].Alert?
      else i > 0 && ns[i - 1].Alert? ==> ns[i].at - ns[i - 1].at >= repeatSeconds
  }

  lemma {:induction false} AlertDiscipline(cfg: MonitorConfig, url: string, ps: seq<Probe>)
    requires cfg.threshold >= 1
    ensures Disciplined(Notices(cfg, url, ps), cfg.repeatSeconds)
    ensures After(cfg, url, ps).notified <==> Alerted(Notices(cfg, url, ps))
  {
    RecordIsHistory(cfg, url, ps);
    if ps != [] {
      var before, p := ps[..|ps| - 1], ps[|ps| - 1];
      AlertDiscipline(cfg, url, before);
      assert before + [p] == ps;
      NoticeExactlyWhen(cfg, url, before, p);
    }
  }

  // ------------------------------------------------------------ whole executions

  /** A check that is new, or whose endpoint changed, starts a history with this probe; any other goes on with the
      history it has. */
  lemma HistoryRule(cfg: MonitorConfig, state: State, probes: map<string, Probe>, next: State, i: nat, ps: seq<Probe>)
    requires Updated(cfg, state, probes, next) && i < |cfg.checks|
    ensures cfg.checks[i].name in probes && cfg.checks[i].name in next
    ensures var check := cfg.checks[i];
            var p := probes[check.name];
            && (check.name !in state || state[check.name].url != check.url ==>
                  next[check.name] == After(cfg, check.url, [p]))
            && (check.name in state && state[check.name] == After(cfg, check.url, ps) ==>
                  next[check.name] == After(cfg, check.url, ps + [p]))
  {
    var check := cfg.checks[i];
    var p := probes[check.name];
    RecordIsHistory(cfg, check.url, ps);
    assert [p][..0] == [] && (ps + [p])[..|ps|] == ps;
    assert check in cfg.checks && check.name in NamesOf(cfg.checks);
  }

  /** So no recovery is announced for an endpoint that has not been alerted about. */
  lemma NewEndpointIsSilent(cfg: MonitorConfig, url: string, p: Probe)
    requires cfg.threshold >= 1
    ensures Notices(cfg, url, [p]) == if p.delivered && p.error && cfg.threshold == 1 then [Alert(p.now)] else []
  {
    assert [] + [p] == [p];
    NoticeExactlyWhen(cfg, url, [], p);
  }

  /** The state files of consecutive executions under one configuration. */
  ghost predicate Executions(cfg: MonitorConfig, runs: seq<map<string, Probe>>, states: seq<State>) {
    && |states| == |runs| + 1 && states[0] == map[]
    && forall k :: 0 <= k < |runs| ==> Updated(cfg, states[k], runs[k], states[k + 1])
  }

  function ProbesOf(runs: seq<map<string, Probe>>, name: string): seq<Probe>
    requires forall k :: 0 <= k < |runs| ==> name in runs[k]
  {
    seq(|runs|, k requires 0 <= k < |runs| => runs[k][name])
  }

  /** In any number of executions every check runs its own history, whatever the others do. */
  lemma {:induction false} ChecksAreIndependent(
      cfg: MonitorConfig, runs: seq<map<string, Probe>>, states: seq<State>, i: nat)
    requires i < |cfg.checks| && Executions(cfg, runs, states) && runs != []
    requires forall k :: 0 <= k < |runs| ==> cfg.checks[i].name in runs[k]
    ensures cfg.checks[i].name in states[|runs|]
    ensures states[|runs|][cfg.checks[i].name] == After(cfg, cfg.checks[i].url, ProbesOf(runs, cfg.checks[i].name))
    ensures After(cfg, cfg.checks[i].url, ProbesOf(runs, cfg.checks[i].name)).url == cfg.checks[i].url
    decreases |runs|
  {
    var check, n := cfg.checks[i], |runs| - 1;
    var before := runs[..n];
    assert Updated(cfg, states[n], runs[n], states[n + 1]);
    assert ProbesOf(runs, check.name)[..n] == ProbesOf(before, check.name);
    if n > 0 {
      ChecksAreIndependent(cfg, before, states[..n + 1], i);
    } else {
      assert ProbesOf(before, check.name) == [];
    }
  }
}
