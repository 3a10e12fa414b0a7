/** When the write that puts the mark on the Service never outlives the call that sent it, every run is
    careful and well aimed. */
module OnTime {
  import opened Store
  import opened Machine
  import opened Invariant
  import opened Life
  import opened Runs
  import opened Barrier
  import opened Marks

  /** Marks are not late, and nobody who passed the deletion check is behind one. */
  predicate OnTimeInv(s: Sys) {
    !s.env.lateMarks && (s.pc.Checked? ==> !Marked(s))
  }

  lemma OnTimeAims(s: Sys, a: Action)
    requires PcInv(s) && MarkPc(s) && OnTimeInv(s) && Enabled(s, a)
    ensures Aimed(s, a)
  {
  }

  lemma ChecksFirst(s: Sys, a: Action)
    requires Enabled(s, a) && !a.Land? && Next(s, a).pc.Checked?
    ensures s.pc.Checked? || !Marked(s)
  {
    if TouchesDb(a) {
      TransactionPc(s, a);
    } else if OnlyReads(a) {
      ReadChecks(s, a);
    }
  }

  lemma ReadChecks(s: Sys, a: Action)
    requires Enabled(s, a) && OnlyReads(a) && Next(s, a).pc.Checked?
    ensures !Marked(s)
  {
    assert a.StartDeploy? || a.StartWithdraw?;
  }

  lemma LandingKeepsChecked(s: Sys, w: Write)
    requires Enabled(s, Land(w)) && Next(s, Land(w)).pc.Checked? && !s.env.lateMarks
    ensures s.pc.Checked? && !IsMark(w)
  {
  }

  lemma StepKeepsOnTime(s: Sys, a: Action)
    requires OnTimeInv(s) && Enabled(s, a)
    ensures OnTimeInv(Next(s, a))
  {
    if Next(s, a).pc.Checked? && Marked(Next(s, a)) {
      if a.Land? {
        LandingKeepsChecked(s, a.w);
        OtherLanding(s, a.w);
      } else {
        ServiceUntouched(s, a);
        ChecksFirst(s, a);
      }
    }
  }

  lemma {:induction false} OnTimeIsAimed(s: Sys, acts: seq<Action>)
    requires Inv(s) && MarkInv(s) && OnTimeInv(s) && ValidRun(s, acts)
    ensures AimedRun(s, acts) && CarefulRun(s, acts)
    decreases |acts|
  {
    if acts != [] {
      StepKeepsInv(s, acts[0]);
      StepKeepsMarks(s, acts[0]);
      OnTimeAims(s, acts[0]);
      StepKeepsOnTime(s, acts[0]);
      OnTimeIsAimed(Next(s, acts[0]), acts[1..]);
    }
  }

  /** Without late marks the barrier holds, and every mark can be resumed, in all states of all runs. */
  lemma OnTimeRuns(s0: Sys, acts: seq<Action>)
    requires Init(s0) && !s0.env.lateMarks && ValidRun(s0, acts)
    ensures CarefulRun(s0, acts) && HoldsThroughout(s0, acts) && GuardedThroughout(s0, acts)
  {
    InitInv(s0);
    OnTimeIsAimed(s0, acts);
    BarrierExactly(s0, acts);
    ResumableExactly(s0, acts);
  }
}
