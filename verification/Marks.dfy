/** In every environment, a removal of the Service is only ever sent, and can only ever land, on a mark
    that is intact. */
module Marks {
  import opened Types
  import opened Store
  import opened Machine
  import opened Invariant
  import opened Life
  import opened Runs
  import opened Barrier

  /** If the Service still is at this gate, its mark is intact. */
  predicate GateIntact(s: Sys, gate: Gate) {
    gate.rv < s.nextRv && (s.svc.Some? && GateOf(s.svc.value) == gate ==> Intact(s))
  }

  predicate MarkPc(s: Sys) {
    match s.pc
    case Deleting => s.db.bindings != map[]
    case Await(k, w) => k.KMark? ==> AimedAt(w, s.db.row)
    case DeleteFenced(gate) => GateIntact(s, gate)
    case DeleteDrained(gate) => GateIntact(s, gate)
    case DeleteCleaned(gate) => GateIntact(s, gate)
    case DeleteRouted(gate) => GateIntact(s, gate)
    case DeleteRowed(gate) => GateIntact(s, gate)
    case _ => true
  }

  ghost predicate RemovalsIntact(s: Sys) {
    forall w :: w in s.writes && w.Remove? && Hits(s.svc, w.rv) ==> Intact(s)
  }

  /** Only an application with candidate generations is ever marked. */
  ghost predicate MarksBound(s: Sys) {
    (Marked(s) || exists w :: w in s.writes && IsMark(w)) ==> s.db.bindings != map[]
  }

  ghost predicate MarkInv(s: Sys) {
    MarkPc(s) && RemovalsIntact(s) && MarksBound(s)
  }

  // ---------------------------------------------------------------- bindings

  lemma BindingsStay(s: Sys, a: Action)
    requires KeysOK(s.db) && Enabled(s, a) && s.db.bindings != map[]
    ensures Next(s, a).db.bindings != map[]
  {
    StepOnward(s, a);
    var r :| r in s.db.bindings;
    assert r in Next(s, a).db.bindings;
  }

  lemma MarkSource(s: Sys, a: Action)
    requires Enabled(s, a) && MarkPc(s)
    requires Marked(Next(s, a)) || exists w :: w in Next(s, a).writes && IsMark(w)
    ensures Marked(s) || (exists w :: w in s.writes && IsMark(w)) || s.db.bindings != map[]
  {
    if a.Land? {
      if !IsMark(a.w) && Marked(Next(s, a)) {
        assert Marked(s);
      }
    } else {
      ServiceUntouched(s, a);
      if SendsWrite(a) {
        WritesGrow(s, a);
      }
    }
  }

  lemma WritesGrow(s: Sys, a: Action)
    requires Enabled(s, a) && SendsWrite(a)
    ensures Next(s, a).writes == s.writes + {Sent(s, a).1}
    ensures IsMark(Sent(s, a).1) ==> s.pc.Deleting?
  {
  }

  lemma StepKeepsBound(s: Sys, a: Action)
    requires KeysOK(s.db) && Enabled(s, a) && MarkPc(s) && MarksBound(s)
    ensures MarksBound(Next(s, a))
  {
    if Marked(Next(s, a)) || exists w :: w in Next(s, a).writes && IsMark(w) {
      MarkSource(s, a);
      BindingsStay(s, a);
    }
  }

  // ----------------------------------------------------------------- landing

  lemma LandedIntact(s: Sys, w: Write)
    requires Enabled(s, Land(w)) && IsMark(w) && AimedAt(w, s.db.row) && (w.Update? ==> !Marked(s))
    ensures var t := Next(s, Land(w)); Intact(t) && t.svc.value.rv < t.nextRv
  {
  }

  lemma LandKeepsMarkPc(s: Sys, w: Write)
    requires SvcInv(s) && WritesInv(s) && MarkPc(s) && Enabled(s, Land(w))
    ensures MarkPc(Next(s, Land(w)))
  {
    assert WriteOK(s, w);
    if s.pc.Await? && s.pc.w == w && s.pc.k.KMark? {
      LandedIntact(s, w);
    }
  }

  lemma LandKeepsRemovals(s: Sys, w: Write)
    requires WritesInv(s) && RemovalsIntact(s) && Enabled(s, Land(w))
    ensures RemovalsIntact(Next(s, Land(w)))
  {
    var t := Next(s, Land(w));
    forall x | x in t.writes && x.Remove? && Hits(t.svc, x.rv) ensures Intact(t) {
      assert WriteOK(s, x);
    }
  }

  // ------------------------------------------------------------- transactions

  lemma IntactStays(s: Sys, a: Action)
    requires PcInv(s) && NoPending(s.db) && Intact(s) && Enabled(s, a) && !a.Land?
    ensures Intact(Next(s, a))
  {
    RowStays(s, a);
    ServiceUntouched(s, a);
  }

  lemma OtherKeepsRemovals(s: Sys, a: Action)
    requires PcInv(s) && WritesInv(s) && RemovalsIntact(s) && MarkPc(s) && Enabled(s, a) && !a.Land?
    ensures RemovalsIntact(Next(s, a))
  {
    ServiceUntouched(s, a);
    forall w | w in Next(s, a).writes && w.Remove? && Hits(s.svc, w.rv) ensures Intact(Next(s, a)) {
      if w in s.writes {
        assert WriteOK(s, w);
      } else {
        NewRemoval(s, a, w);
      }
      IntactStays(s, a);
    }
  }

  lemma NewRemoval(s: Sys, a: Action, w: Write)
    requires PcInv(s) && MarkPc(s) && Enabled(s, a) && w.Remove? && w !in s.writes && w in Next(s, a).writes
    ensures NoPending(s.db) && Intact(s)
  {
    RemovalSent(s, a, w);
    FinishIntact(s);
  }

  lemma RemovalSent(s: Sys, a: Action, w: Write)
    requires Enabled(s, a) && w.Remove? && w !in s.writes && w in Next(s, a).writes
    ensures a == DeleteFinish
  {
    if SendsWrite(a) {
      WritesGrow(s, a);
    }
  }

  lemma FinishIntact(s: Sys)
    requires PcInv(s) && MarkPc(s) && Enabled(s, DeleteFinish)
    ensures NoPending(s.db) && Intact(s)
  {
  }

  lemma ReadKeepsMarkPc(s: Sys, a: Action)
    requires SvcInv(s) && MarkPc(s) && Enabled(s, a) && OnlyReads(a)
    ensures MarkPc(Next(s, a))
  {
    if a.StartDelete? {
      StartKeepsMarkPc(s);
    } else if a.DeleteResume? {
      ResumeKeepsMarkPc(s);
    } else if a.DeleteDrain? || a.DeleteClean? {
      PassKeepsMarkPc(s, a);
    } else {
      OtherReadKeepsMarkPc(s, a);
    }
  }

  lemma StartKeepsMarkPc(s: Sys)
    requires Enabled(s, StartDelete)
    ensures MarkPc(Next(s, StartDelete))
  {
  }

  lemma ResumeKeepsMarkPc(s: Sys)
    requires SvcInv(s) && Enabled(s, DeleteResume)
    ensures MarkPc(Next(s, DeleteResume))
  {
  }

  lemma PassKeepsMarkPc(s: Sys, a: Action)
    requires MarkPc(s) && Enabled(s, a) && (a.DeleteDrain? || a.DeleteClean?)
    ensures MarkPc(Next(s, a))
  {
  }

  lemma OtherReadKeepsMarkPc(s: Sys, a: Action)
    requires Enabled(s, a) && OnlyReads(a)
    requires !a.StartDelete? && !a.DeleteResume? && !a.DeleteDrain? && !a.DeleteClean?
    ensures MarkPc(Next(s, a))
  {
  }

  lemma TransactKeepsMarkPc(s: Sys, a: Action)
    requires PcInv(s) && MarkPc(s) && Enabled(s, a) && TouchesDb(a)
    ensures MarkPc(Next(s, a))
  {
    if a.DeleteRoutes? || a.DeleteRow? {
      RowStays(s, a);
    }
  }

  lemma SendKeepsMarkPc(s: Sys, a: Action)
    requires MarkPc(s) && Enabled(s, a) && !a.Land? && !OnlyReads(a) && !TouchesDb(a)
    ensures MarkPc(Next(s, a))
  {
    if SendsWrite(a) {
      WriteKeepsMarkPc(s, a);
    }
  }

  lemma WriteKeepsMarkPc(s: Sys, a: Action)
    requires Enabled(s, a) && SendsWrite(a)
    ensures MarkPc(Next(s, a))
  {
  }

  lemma StepKeepsMarkPc(s: Sys, a: Action)
    requires Inv(s) && MarkPc(s) && Enabled(s, a)
    ensures MarkPc(Next(s, a))
  {
    if a.Land? {
      LandKeepsMarkPc(s, a.w);
    } else if OnlyReads(a) {
      ReadKeepsMarkPc(s, a);
    } else if TouchesDb(a) {
      TransactKeepsMarkPc(s, a);
    } else {
      SendKeepsMarkPc(s, a);
    }
  }

  // -------------------------------------------------------------------- runs

  lemma StepKeepsMarks(s: Sys, a: Action)
    requires Inv(s) && MarkInv(s) && Enabled(s, a)
    ensures MarkInv(Next(s, a))
  {
    StepKeepsMarkPc(s, a);
    StepKeepsBound(s, a);
    if a.Land? {
      LandKeepsRemovals(s, a.w);
    } else {
      OtherKeepsRemovals(s, a);
    }
  }

  lemma {:induction false} RunKeepsMarks(s: Sys, acts: seq<Action>)
    requires Inv(s) && MarkInv(s) && ValidRun(s, acts)
    ensures Inv(Exec(s, acts)) && MarkInv(Exec(s, acts))
    decreases |acts|
  {
    if acts != [] {
      StepKeepsInv(s, acts[0]);
      StepKeepsMarks(s, acts[0]);
      RunKeepsMarks(Next(s, acts[0]), acts[1..]);
    }
  }
}
