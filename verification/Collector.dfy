/** The collector that copies mutation audit records from the system journal into the audit log. */
module Collector {
  import opened Types

  type Record = nat

  /** A journal entry: its cursor, and the audit record it carries, if it carries one. */
  datatype Entry = Entry(cursor: nat, audit: Option<Record>)

  function AuditsIn(es: seq<Entry>): seq<Record> {
    if es == [] then []
    else
      var rest := AuditsIn(es[..|es| - 1]);
      if es[|es| - 1].audit.Some? then rest + [es[|es| - 1].audit.value] else rest
  }

  lemma {:induction false} AuditsInConcat(a: seq<Entry>, b: seq<Entry>)
    ensures AuditsIn(a + b) == AuditsIn(a) + AuditsIn(b)
  {
    if b == [] {
      assert a + b == a;
    } else {
      AuditsInConcat(a, b[..|b| - 1]);
      assert (a + b)[..|a + b| - 1] == a + b[..|b| - 1];
    }
  }

  lemma AuditsInOneMore(es: seq<Entry>, e: Entry)
    ensures AuditsIn(es + [e]) == if e.audit.Some? then AuditsIn(es) + [e.audit.value] else AuditsIn(es)
  {
    assert (es + [e])[..|es|] == es;
  }

  /** `a` can be found in `b`, in order. */
  predicate Within(a: seq<Record>, b: seq<Record>) {
    if a == [] then true
    else if b == [] then false
    else (a[|a| - 1] == b[|b| - 1] && Within(a[..|a| - 1], b[..|b| - 1])) || Within(a, b[..|b| - 1])
  }

  lemma {:induction false} WithinLonger(a: seq<Record>, b: seq<Record>, more: seq<Record>)
    requires Within(a, b)
    ensures Within(a, b + more)
  {
    if more == [] {
      assert b + more == b;
    } else {
      WithinLonger(a, b, more[..|more| - 1]);
      assert (b + more)[..|b + more| - 1] == b + more[..|more| - 1];
    }
  }

  lemma {:induction false} WithinBoth(a: seq<Record>, b: seq<Record>, more: seq<Record>)
    requires Within(a, b)
    ensures Within(a + more, b + more)
  {
    if more == [] {
      assert a + more == a && b + more == b;
    } else {
      WithinBoth(a, b, more[..|more| - 1]);
      assert (a + more)[..|a + more| - 1] == a + more[..|more| - 1];
      assert (b + more)[..|b + more| - 1] == b + more[..|more| - 1];
    }
  }

  // ----------------------------------------------------------------- one run

  /** The saved cursor is the first entry the inclusive lookup returns, or there is none saved. */
  predicate Matches(found: seq<Entry>, cursor: Option<nat>) {
    cursor.Some? ==> found != [] && found[0].cursor == cursor.value
  }

  function Unread(found: seq<Entry>, cursor: Option<nat>): seq<Entry>
    requires Matches(found, cursor)
  {
    if cursor.Some? then found[1..] else found
  }

  function Latest(es: seq<Entry>, cursor: Option<nat>): Option<nat> {
    if es == [] then cursor else Some(es[|es| - 1].cursor)
  }

  /** What the loop appends to the log, and the cursor to save afterwards. A lookup that does not
      begin with the saved cursor is refused before anything is written. */
  method Collect(found: seq<Entry>, cursor: Option<nat>) returns (ok: bool, written: seq<Record>, latest: Option<nat>)
    ensures ok <==> Matches(found, cursor)
    ensures ok ==> written == AuditsIn(Unread(found, cursor)) && latest == Latest(Unread(found, cursor), cursor)
    ensures !ok ==> written == [] && latest == cursor
  {
    written, latest := [], cursor;
    var matched := cursor.None?;
    var skipped := if cursor.Some? then 1 else 0;
    for n := 0 to |found|
      invariant matched <==> n >= skipped
      invariant n > 0 ==> Matches(found, cursor)
      invariant !matched ==> written == [] && latest == cursor
      invariant matched ==> written == AuditsIn(found[skipped..n]) && latest == Latest(found[skipped..n], cursor)
    {
      var outer := found[n];
      if !matched {
        if outer.cursor != cursor.value {
          return false, [], cursor;
        }
        matched := true;
        assert found[skipped..n + 1] == [];
        continue;
      }
      latest := Some(outer.cursor);
      if outer.audit.Some? {
        written := written + [outer.audit.value];
      }
      assert found[skipped..n + 1] == found[skipped..n] + [outer];
      AuditsInOneMore(found[skipped..n], outer);
    }
    if matched {
      assert found[skipped..|found|] == Unread(found, cursor);
    }
    ok := matched;
  }

  // -------------------------------------------------------------------- runs

  /** `journal` is everything ever written to it, of which the entries from `base` on are retained.
      `since` is where the first completed run began to read. */
  datatype State = State(journal: seq<Entry>, base: nat, log: seq<Record>, cursor: Option<nat>, since: nat)

  datatype Event =
    | Written(e: Entry)          // the server writes to the journal
    | Vacuumed(base: nat)        // the journal drops its oldest entries
    | Completed                  // a run reads to the end, flushes and saves the cursor
    | Interrupted(lines: nat)    // a run dies or fails after appending that many whole lines

  predicate HasCursor(s: State, cursor: nat, i: nat) {
    s.base <= i < |s.journal| && s.journal[i].cursor == cursor
  }

  /** What the journal query returns: from the saved cursor on if it is retained; a vacuumed cursor
      may make it start anywhere in what is left. */
  ghost predicate Answers(s: State, found: seq<Entry>) {
    s.base <= |s.journal| &&
    match s.cursor
    case None => found == s.journal[s.base..]
    case Some(c) =>
      exists i ::
        && s.base <= i <= |s.journal| && found == s.journal[i..]
        && ((exists j :: HasCursor(s, c, j)) ==> HasCursor(s, c, i))
  }

  ghost predicate Step(s: State, e: Event, t: State) {
    match e
    case Written(entry) =>
      && (forall i :: 0 <= i < |s.journal| ==> s.journal[i].cursor != entry.cursor)
      && t == s.(journal := s.journal + [entry])
    case Vacuumed(base) => s.base <= base <= |s.journal| && t == s.(base := base)
    case Completed =>
      exists found :: Answers(s, found) &&
        (if Matches(found, s.cursor) then
           && t == s.(log := s.log + AuditsIn(Unread(found, s.cursor)),
                      cursor := Latest(Unread(found, s.cursor), s.cursor), since := t.since)
           && t.since == if s.cursor.None? then s.base else s.since
         else t == s)
    case Interrupted(lines) =>
      exists found :: Answers(s, found) &&
        (if Matches(found, s.cursor) && lines <= |AuditsIn(Unread(found, s.cursor))|
         then t == s.(log := s.log + AuditsIn(Unread(found, s.cursor))[..lines])
         else t == s)
  }

  ghost predicate Run(states: seq<State>, events: seq<Event>) {
    && |states| == |events| + 1
    && forall k :: 0 <= k < |events| ==> Step(states[k], events[k], states[k + 1])
  }

  const Fresh := State([], 0, [], None, 0)

  predicate DistinctCursors(es: seq<Entry>) {
    forall i, j :: 0 <= i < j < |es| ==> es[i].cursor != es[j].cursor
  }

  /** The log covers the journal from the first run to the saved cursor. */
  ghost predicate Covered(s: State, upto: nat) {
    && s.since <= upto < |s.journal| && s.cursor == Some(s.journal[upto].cursor)
    && Within(AuditsIn(s.journal[s.since..upto + 1]), s.log)
  }

  ghost predicate Inv(s: State) {
    && s.base <= |s.journal| && DistinctCursors(s.journal)
    && (s.cursor.Some? ==> exists upto :: Covered(s, upto))
  }

  lemma CompletedKeepsInv(s: State, t: State)
    requires Inv(s) && Step(s, Completed, t)
    ensures Inv(t)
  {
    var found :| Answers(s, found) &&
      (if Matches(found, s.cursor) then
         && t == s.(log := s.log + AuditsIn(Unread(found, s.cursor)),
                    cursor := Latest(Unread(found, s.cursor), s.cursor), since := t.since)
         && t.since == if s.cursor.None? then s.base else s.since
       else t == s);
    if Matches(found, s.cursor) && s.cursor.None? {
      FirstRunCovers(s, t);
    } else if Matches(found, s.cursor) {
      LaterRunCovers(s, t, found);
    }
  }

  lemma FirstRunCovers(s: State, t: State)
    requires Inv(s) && s.cursor.None?
    requires t == s.(log := s.log + AuditsIn(s.journal[s.base..]),
                     cursor := Latest(s.journal[s.base..], None), since := s.base)
    ensures Inv(t)
  {
    if s.base < |s.journal| {
      assert s.journal[s.base..|s.journal|] == s.journal[s.base..];
      WithinBoth([], s.log, AuditsIn(s.journal[s.base..]));
      assert [] + AuditsIn(s.journal[s.base..]) == AuditsIn(s.journal[s.base..]);
      assert Covered(t, |s.journal| - 1);
    }
  }

  /** The lookup is inclusive, so a match proves that nothing between the cursor and the answer is missing. */
  lemma LaterRunCovers(s: State, t: State, found: seq<Entry>)
    requires Inv(s) && s.cursor.Some? && Answers(s, found) && Matches(found, s.cursor)
    requires t == s.(log := s.log + AuditsIn(found[1..]), cursor := Latest(found[1..], s.cursor))
    ensures Inv(t)
  {
    var upto :| Covered(s, upto);
    var i :| s.base <= i <= |s.journal| && found == s.journal[i..];
    assert found[0] == s.journal[i];
    assert i == upto;
    assert found[1..] == s.journal[upto + 1..];
    RestCovers(s, t, upto);
  }

  lemma RestCovers(s: State, t: State, upto: nat)
    requires s.base <= |s.journal| && DistinctCursors(s.journal) && Covered(s, upto)
    requires t == s.(log := s.log + AuditsIn(s.journal[upto + 1..]), cursor := Latest(s.journal[upto + 1..], s.cursor))
    ensures Inv(t)
  {
    var a, b := s.journal[s.since..upto + 1], s.journal[upto + 1..];
    AuditsInConcat(a, b);
    WithinBoth(AuditsIn(a), s.log, AuditsIn(b));
    assert a + b == s.journal[s.since..|s.journal|];
    if b == [] {
      assert b == [] && upto + 1 == |s.journal|;
      assert t.log == s.log;
      assert Covered(t, upto);
    } else {
      assert b[|b| - 1] == s.journal[|s.journal| - 1];
      assert Covered(t, |s.journal| - 1);
    }
  }

  /** A cursor that the journal no longer holds is noticed: no run moves past the gap. */
  lemma GapIsRefused(s: State, e: Event, t: State)
    requires Inv(s) && s.cursor.Some? && (forall i :: !HasCursor(s, s.cursor.value, i))
    requires Step(s, e, t) && (e.Completed? || e.Interrupted?)
    ensures t == s
  {
    forall found | Answers(s, found) ensures !Matches(found, s.cursor) {
      var i :| s.base <= i <= |s.journal| && found == s.journal[i..];
      if found != [] {
        assert found[0] == s.journal[i];
        assert !HasCursor(s, s.cursor.value, i);
      }
    }
  }

  /** A completed run appends exactly the audit records after its cursor, which the journal still holds, or all that
      is retained if there is none, and its cursor is then the end of the journal. */
  lemma CollectsToTheEnd(s: State, t: State, i: nat)
    requires Inv(s) && Step(s, Completed, t) && s.journal != [] && s.base < |s.journal|
    requires s.cursor.Some? ==> HasCursor(s, s.cursor.value, i)
    ensures t.cursor == Some(s.journal[|s.journal| - 1].cursor)
    ensures t.log == s.log + AuditsIn(if s.cursor.Some? then s.journal[i + 1..] else s.journal[s.base..])
  {
    var found :| Answers(s, found) &&
      (if Matches(found, s.cursor) then
         && t == s.(log := s.log + AuditsIn(Unread(found, s.cursor)),
                    cursor := Latest(Unread(found, s.cursor), s.cursor), since := t.since)
         && t.since == if s.cursor.None? then s.base else s.since
       else t == s);
    if s.cursor.Some? {
      RetainedAnswer(s, found, i);
      assert found[0] == s.journal[i];
    }
  }

  /** While the journal holds the cursor, the query begins at it. */
  lemma RetainedAnswer(s: State, found: seq<Entry>, i: nat)
    requires DistinctCursors(s.journal) && s.cursor.Some? && HasCursor(s, s.cursor.value, i) && Answers(s, found)
    ensures found == s.journal[i..] && found[1..] == s.journal[i + 1..]
    ensures Latest(found[1..], s.cursor) == Some(s.journal[|s.journal| - 1].cursor)
  {
    var k :| s.base <= k <= |s.journal| && found == s.journal[k..] && HasCursor(s, s.cursor.value, k);
    assert k == i;
    assert s.journal[i..][1..] == s.journal[i + 1..];
  }

  lemma OtherKeepsInv(s: State, e: Event, t: State)
    requires Inv(s) && Step(s, e, t) && !e.Completed?
    ensures Inv(t)
  {
    if s.cursor.Some? {
      var upto :| Covered(s, upto);
      assert t.journal[s.since..upto + 1] == s.journal[s.since..upto + 1];
      if e.Interrupted? && t != s {
        var more := t.log[|s.log|..];
        assert t.log == s.log + more;
        WithinLonger(AuditsIn(s.journal[s.since..upto + 1]), s.log, more);
      }
      assert Covered(t, upto);
    }
  }

  lemma StepKeepsInv(s: State, e: Event, t: State)
    requires Inv(s) && Step(s, e, t)
    ensures Inv(t)
  {
    if e.Completed? {
      CompletedKeepsInv(s, t);
    } else {
      OtherKeepsInv(s, e, t);
    }
  }

  lemma {:induction false} RunKeepsInv(states: seq<State>, events: seq<Event>)
    requires Run(states, events) && Inv(states[0])
    ensures Inv(states[|events|])
    decreases |events|
  {
    if events != [] {
      var n := |events| - 1;
      RunKeepsInv(states[..n + 1], events[..n]);
      StepKeepsInv(states[n], events[n], states[n + 1]);
    }
  }

  /** Across any sequence of runs, crashes and vacuums, every audit entry of the journal from the first
      run up to the saved cursor is in the log, in order. */
  lemma NothingLost(states: seq<State>, events: seq<Event>)
    requires Run(states, events) && states[0] == Fresh
    ensures var s := states[|events|]; s.cursor.Some? ==> exists upto :: Covered(s, upto)
  {
    RunKeepsInv(states, events);
  }

  lemma LogGrows(s: State, e: Event, t: State)
    requires Step(s, e, t)
    ensures s.log <= t.log
  {
  }

  lemma {:induction false} RunGrows(states: seq<State>, events: seq<Event>)
    requires Run(states, events)
    ensures states[0].log <= states[|events|].log
    decreases |events|
  {
    if events != [] {
      var n := |events| - 1;
      RunGrows(states[..n + 1], events[..n]);
      LogGrows(states[n], events[n], states[n + 1]);
    }
  }
}
