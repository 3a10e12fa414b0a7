/** Collector and exporter together: the collector appends to the very log that the exporter reads. Both
    may run at the same time, crash and be repeated in any order. */
module Pipeline {
  import opened Collector
  import opened Exporter

  /** The text of records written one per line. */
  function Text(encode: Record -> string, records: seq<Record>): string {
    if records == [] then "" else Text(encode, records[..|records| - 1]) + encode(records[|records| - 1]) + "\n"
  }

  /** Encoded records have no newline and are read back as they were. */
  ghost predicate ReadsBack(read: Reader, encode: Record -> string) {
    forall r :: '\n' !in encode(r) && read(encode(r) + "\n") == Audit(r)
  }

  lemma {:induction false} TextReadsBack(read: Reader, encode: Record -> string, records: seq<Record>)
    requires ReadsBack(read, encode)
    ensures Whole(Text(encode, records)) && Audits(read, Lines(Text(encode, records))) == records
  {
    if records == [] {
      assert Lines("") == [];
    } else {
      var front, last := records[..|records| - 1], records[|records| - 1];
      TextReadsBack(read, encode, front);
      var line := encode(last) + "\n";
      assert Text(encode, records) == Text(encode, front) + line;
      assert line[..|line| - 1] == encode(last);
      AppendLine(Text(encode, front), line);
      AuditsOneMore(read, Lines(Text(encode, front)), line);
    }
  }

  lemma {:induction false} TextOfSum(encode: Record -> string, a: seq<Record>, b: seq<Record>)
    ensures Text(encode, a + b) == Text(encode, a) + Text(encode, b)
  {
    if b == [] {
      assert a + b == a;
    } else {
      var front, last := b[..|b| - 1], b[|b| - 1];
      TextOfSum(encode, a, front);
      assert (a + b)[..|a + b| - 1] == a + front;
      Regroup(Text(encode, a), Text(encode, front), encode(last));
      Regroup(Text(encode, a), Text(encode, front) + encode(last), "\n");
    }
  }

  // -------------------------------------------------------------------- runs

  datatype Joint = Joint(c: Collector.State, s: Exporter.State)

  /** One event of the exporter, and what the collector went through meanwhile. */
  datatype JointEvent = JointEvent(path: seq<Collector.State>, collected: seq<Collector.Event>, e: Exporter.Event)

  /** The text that the log gains while the event happens. */
  predicate Gains(e: Exporter.Event, text: string) {
    match e
    case Appended(t) => t == text
    case Replaced(_, _) => false
    case Exported(_, _, meanwhile) => meanwhile == text
    case Failed(meanwhile) => meanwhile == text
  }

  /** What the collector appended between `j` and `k`. */
  function Added(j: Joint, k: Joint): seq<Record> {
    if |j.c.log| <= |k.c.log| then k.c.log[|j.c.log|..] else []
  }

  ghost predicate JointStep(read: Reader, encode: Record -> string, max: int, j: Joint, e: JointEvent, k: Joint) {
    && Collector.Run(e.path, e.collected) && e.path[0] == j.c && e.path[|e.collected|] == k.c
    && Exporter.Step(read, max, j.s, e.e, k.s) && Gains(e.e, Text(encode, Added(j, k)))
  }

  ghost predicate JointRun(read: Reader, encode: Record -> string, max: int, js: seq<Joint>, es: seq<JointEvent>) {
    && |js| == |es| + 1
    && forall n :: 0 <= n < |es| ==> JointStep(read, encode, max, js[n], es[n], js[n + 1])
  }

  predicate JointStart(j: Joint) {
    j.c == Fresh && FreshStart(j.s) && j.s.log == ""
  }

  ghost predicate JointInv(read: Reader, encode: Record -> string, j: Joint) {
    && Collector.Inv(j.c) && Exporter.Inv(read, j.s) && Loads(j.s) && j.s.log == Text(encode, j.c.log)
  }

  lemma StepGrows(read: Reader, max: int, s: Exporter.State, e: Exporter.Event, t: Exporter.State, text: string)
    requires Exporter.Step(read, max, s, e, t) && Gains(e, text) && Exporter.Inv(read, s) && Loads(s)
    ensures t.log == s.log + text && Loads(t) && Exporter.Inv(read, t)
  {
    if e.Exported? {
      ExportKeepsInv(read, max, s, e, t);
      assert (s.log + text)[..e.end] == s.log[..e.end];
    } else if s.checkpoint.Some? {
      assert (s.log + text)[..s.checkpoint.value.offset] == s.log[..s.checkpoint.value.offset];
    }
  }

  lemma JointStepKeepsInv(read: Reader, encode: Record -> string, max: int, j: Joint, e: JointEvent, k: Joint)
    requires JointInv(read, encode, j) && JointStep(read, encode, max, j, e, k)
    ensures JointInv(read, encode, k)
  {
    Collector.RunKeepsInv(e.path, e.collected);
    RunGrows(e.path, e.collected);
    StepGrows(read, max, j.s, e.e, k.s, Text(encode, Added(j, k)));
    TextOfSum(encode, j.c.log, Added(j, k));
    assert j.c.log + Added(j, k) == k.c.log;
  }

  lemma {:induction false} JointRunKeepsInv(
      read: Reader, encode: Record -> string, max: int, js: seq<Joint>, es: seq<JointEvent>)
    requires JointRun(read, encode, max, js, es) && JointStart(js[0])
    ensures JointInv(read, encode, js[|es|])
    decreases |es|
  {
    if es != [] {
      var n := |es| - 1;
      JointRunKeepsInv(read, encode, max, js[..n + 1], es[..n]);
      JointStepKeepsInv(read, encode, max, js[n], es[n], js[n + 1]);
    }
  }

  // ----------------------------------------------------------------- results

  lemma CommittedThenRest(read: Reader, encode: Record -> string, j: Joint)
    requires ReadsBack(read, encode) && JointInv(read, encode, j)
    ensures Offset(j.s) <= |j.s.log|
    ensures Flat(j.s.committed) + Audits(read, Lines(j.s.log[Offset(j.s)..])) == j.c.log
  {
    TextReadsBack(read, encode, j.c.log);
    var before, rest := j.s.log[..Offset(j.s)], j.s.log[Offset(j.s)..];
    assert before + rest == j.s.log;
    if j.s.checkpoint.None? {
      assert before == "" && Lines("") == [];
    }
    AuditsOfSum(read, before, rest);
  }

  /** Over any joint run: what has been committed, followed by what the next exports will read, is exactly
      what the collector wrote; so nothing is lost, repeated or reordered between the two. Once the
      exporter has caught up, every audit entry of the journal up to the collector's cursor is in the
      committed batches, in order. */
  lemma PipelineLosesNothing(read: Reader, encode: Record -> string, max: int, js: seq<Joint>, es: seq<JointEvent>)
    requires ReadsBack(read, encode) && JointRun(read, encode, max, js, es) && JointStart(js[0])
    ensures var j := js[|es|];
            && Offset(j.s) <= |j.s.log|
            && Flat(j.s.committed) + Audits(read, Lines(j.s.log[Offset(j.s)..])) == j.c.log
            && (j.c.cursor.Some? && Offset(j.s) == |j.s.log| ==>
                  exists upto :: Covered(j.c, upto)
                                 && Within(AuditsIn(j.c.journal[j.c.since..upto + 1]), Flat(j.s.committed)))
  {
    JointRunKeepsInv(read, encode, max, js, es);
    var j := js[|es|];
    CommittedThenRest(read, encode, j);
    if j.c.cursor.Some? && Offset(j.s) == |j.s.log| {
      assert j.s.log[Offset(j.s)..] == "" && Lines("") == [];
      assert Flat(j.s.committed) == j.c.log;
      var upto :| Covered(j.c, upto);
    }
  }
}
