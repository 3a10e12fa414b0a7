/** The exporter that uploads batches of audit records from the log and commits a checkpoint after
    each verified upload. */
module Exporter {
  import opened Types
  import opened Collector

  /** What one complete line of the log is. */
  datatype Line = Audit(record: Record) | Other | Malformed

  type Reader = string -> Line

  // ------------------------------------------------------------------- lines

  /** The length of the first line of `s`, with its newline, or zero if no line is complete. */
  function FirstLine(s: string): (n: nat)
    ensures n <= |s|
  {
    if s == "" then 0
    else if s[0] == '\n' then 1
    else var n := FirstLine(s[1..]); if n == 0 then 0 else n + 1
  }

  lemma {:induction false} FirstLineIs(s: string)
    ensures FirstLine(s) > 0 <==> '\n' in s
    ensures FirstLine(s) > 0 ==> s[FirstLine(s) - 1] == '\n' && '\n' !in s[..FirstLine(s) - 1]
  {
    if s != "" {
      FirstLineIs(s[1..]);
      assert s == [s[0]] + s[1..];
    }
  }

  /** The complete lines of a text; a last line without newline is not one. */
  function Lines(s: string): seq<string>
    decreases |s|
  {
    var n := FirstLine(s);
    if n == 0 then [] else [s[..n]] + Lines(s[n..])
  }

  /** The text ends at a line boundary. */
  predicate Whole(s: string) {
    s == "" || s[|s| - 1] == '\n'
  }

  function Audits(read: Reader, lines: seq<string>): seq<Record> {
    if lines == [] then []
    else
      var rest, line := Audits(read, lines[..|lines| - 1]), read(lines[|lines| - 1]);
      if line.Audit? then rest + [line.record] else rest
  }

  lemma {:induction false} AuditsConcat(read: Reader, a: seq<string>, b: seq<string>)
    ensures Audits(read, a + b) == Audits(read, a) + Audits(read, b)
  {
    if b == [] {
      assert a + b == a;
    } else {
      AuditsConcat(read, a, b[..|b| - 1]);
      assert (a + b)[..|a + b| - 1] == a + b[..|b| - 1];
    }
  }

  lemma {:induction false} FirstLineStays(s: string, more: string)
    requires FirstLine(s) > 0
    ensures FirstLine(s + more) == FirstLine(s)
  {
    if s[0] != '\n' {
      FirstLineStays(s[1..], more);
      assert (s + more)[1..] == s[1..] + more;
    }
  }

  lemma WholeHasLine(s: string)
    requires Whole(s) && s != ""
    ensures FirstLine(s) > 0 && Whole(s[FirstLine(s)..])
  {
    FirstLineIs(s);
    assert s[|s| - 1] in s;
  }

  /** One complete line and nothing else. */
  predicate IsLine(s: string) {
    s != "" && FirstLine(s) == |s|
  }

  lemma FirstIsLine(s: string)
    requires FirstLine(s) > 0
    ensures IsLine(s[..FirstLine(s)])
  {
    FirstLineIs(s);
    FirstLineOf(s[..FirstLine(s)]);
  }

  lemma LinesCons(line: string, rest: string)
    requires IsLine(line)
    ensures Lines(line + rest) == [line] + Lines(rest)
  {
    FirstLineStays(line, rest);
    assert (line + rest)[..|line|] == line && (line + rest)[|line|..] == rest;
  }

  lemma SplitLine(s: string) returns (line: string, rest: string)
    requires Whole(s) && s != ""
    ensures s == line + rest && |rest| < |s| && IsLine(line) && Whole(rest)
  {
    WholeHasLine(s);
    FirstIsLine(s);
    line, rest := s[..FirstLine(s)], s[FirstLine(s)..];
  }

  lemma Regroup<T>(a: seq<T>, b: seq<T>, c: seq<T>)
    ensures a + b + c == a + (b + c)
  {
  }

  lemma LinesStep(line: string, rest: string, b: string)
    requires IsLine(line) && Lines(rest + b) == Lines(rest) + Lines(b)
    ensures Lines(line + rest + b) == Lines(line + rest) + Lines(b)
  {
    Regroup(line, rest, b);
    LinesCons(line, rest + b);
    LinesCons(line, rest);
    Regroup([line], Lines(rest), Lines(b));
  }

  lemma LinesEmpty(b: string)
    ensures Lines("" + b) == Lines("") + Lines(b)
  {
    assert "" + b == b;
  }

  lemma {:induction false} LinesConcat(a: string, b: string)
    requires Whole(a)
    ensures Lines(a + b) == Lines(a) + Lines(b)
    decreases |a|
  {
    if a == "" {
      LinesEmpty(b);
    } else {
      var line, rest := SplitLine(a);
      LinesConcat(rest, b);
      LinesStep(line, rest, b);
    }
  }

  lemma AuditsOfSum(read: Reader, a: string, b: string)
    requires Whole(a)
    ensures Audits(read, Lines(a + b)) == Audits(read, Lines(a)) + Audits(read, Lines(b))
    ensures Whole(b) ==> Whole(a + b)
  {
    LinesConcat(a, b);
    AuditsConcat(read, Lines(a), Lines(b));
    if b == "" {
      assert a + b == a;
    }
  }

  lemma OneLine(s: string)
    requires IsLine(s)
    ensures Lines(s) == [s] && Whole(s)
  {
    FirstLineIs(s);
    assert s[..|s|] == s && s[|s|..] == "";
    assert Lines("") == [];
  }

  lemma {:induction false} FirstLineOf(line: string)
    requires line != "" && line[|line| - 1] == '\n' && '\n' !in line[..|line| - 1]
    ensures FirstLine(line) == |line|
  {
    if |line| > 1 {
      assert line[0] == line[..|line| - 1][0];
      forall i | 0 <= i < |line| - 2 ensures line[1..][i] != '\n' {
        assert line[1..][i] == line[..|line| - 1][i + 1];
      }
      FirstLineOf(line[1..]);
    }
  }

  lemma AppendLine(text: string, line: string)
    requires Whole(text) && line != "" && line[|line| - 1] == '\n' && '\n' !in line[..|line| - 1]
    ensures Whole(text + line) && Lines(text + line) == Lines(text) + [line]
  {
    LinesConcat(text, line);
    FirstLineOf(line);
    OneLine(line);
  }

  lemma SliceJoins(s: string, i: nat, j: nat, n: nat)
    requires i <= j && j + n <= |s|
    ensures s[i..j + n] == s[i..j] + s[j..][..n]
  {
  }

  /** The next complete line extends what has been read by exactly the record on it, if any. */
  lemma NextLine(read: Reader, log: string, start: nat, pos: nat, n: nat)
    requires start <= pos <= |log| && Whole(log[start..pos]) && n == FirstLine(log[pos..]) > 0
    ensures pos + n <= |log| && Whole(log[start..pos + n])
    ensures var before, line := Audits(read, Lines(log[start..pos])), read(log[pos..][..n]);
            Audits(read, Lines(log[start..pos + n])) == if line.Audit? then before + [line.record] else before
  {
    ReadsLine(read, log[start..pos], log[pos..], n);
    SliceJoins(log, start, pos, n);
  }

  lemma ReadsLine(read: Reader, text: string, rest: string, n: nat)
    requires Whole(text) && n == FirstLine(rest) > 0
    ensures Whole(text + rest[..n])
    ensures var before, line := Audits(read, Lines(text)), read(rest[..n]);
            Audits(read, Lines(text + rest[..n])) == if line.Audit? then before + [line.record] else before
  {
    var line := rest[..n];
    FirstLineIs(rest);
    assert line[..n - 1] == rest[..n - 1];
    AppendLine(text, line);
    AuditsOneMore(read, Lines(text), line);
  }

  lemma AuditsOneMore(read: Reader, lines: seq<string>, line: string)
    ensures Audits(read, lines + [line]) ==
              if read(line).Audit? then Audits(read, lines) + [read(line).record] else Audits(read, lines)
  {
    assert (lines + [line])[..|lines|] == lines;
  }

  // ------------------------------------------------------------------- batch

  /** `payload` is the audit records of the complete lines between `offset` and `end`. */
  ghost predicate Read(read: Reader, log: string, offset: nat, end: nat, payload: seq<Record>) {
    offset <= end <= |log| && Whole(log[offset..end]) && payload == Audits(read, Lines(log[offset..end]))
  }

  /** A batch stops short of a complete line only when it is full. */
  ghost predicate Batch(read: Reader, log: string, offset: nat, max: int, payload: seq<Record>, end: nat) {
    && Read(read, log, offset, end, payload)
    && (|payload| >= max || FirstLine(log[end..]) == 0)
  }

  /** Reads the line of length `n` at `pos`. */
  method ReadLine(read: Reader, log: string, offset: nat, pos: nat, n: nat, batch: seq<Record>)
    returns (longer: Option<seq<Record>>)
    requires Read(read, log, offset, pos, batch) && n == FirstLine(log[pos..]) > 0
    ensures pos + n <= |log|
    ensures longer.None? <==> read(log[pos..][..n]).Malformed?
    ensures longer.Some? ==> Read(read, log, offset, pos + n, longer.value) && |longer.value| <= |batch| + 1
  {
    NextLine(read, log, offset, pos, n);
    match read(log[pos..][..n])
    case Malformed => longer := None;
    case Other => longer := Some(batch);
    case Audit(record) => longer := Some(batch + [record]);
  }

  lemma NothingRead(read: Reader, log: string, offset: nat)
    requires offset <= |log|
    ensures Read(read, log, offset, offset, [])
  {
    assert log[offset..offset] == "" && Lines("") == [];
  }

  predicate MalformedAt(read: Reader, log: string, pos: nat) {
    pos <= |log| && FirstLine(log[pos..]) > 0 && read(log[pos..][..FirstLine(log[pos..])]).Malformed?
  }

  method ReadBatch(read: Reader, log: string, offset: nat, max: int) returns (payload: Option<seq<Record>>, end: nat)
    requires offset <= |log| && max > 0
    ensures payload.Some? ==> Batch(read, log, offset, max, payload.value, end) && |payload.value| <= max
    ensures payload.None? ==> offset <= end && MalformedAt(read, log, end)
  {
    end := offset;
    var batch: seq<Record> := [];
    NothingRead(read, log, offset);
    var n := FirstLine(log[end..]);
    while n > 0 && |batch| < max
      invariant end <= |log| && n == FirstLine(log[end..])
      invariant Read(read, log, offset, end, batch) && |batch| <= max
      decreases |log| - end
    {
      payload := ReadLine(read, log, offset, end, n, batch);
      if payload.None? {
        return None, end;
      }
      batch, end := payload.value, end + n;
      n := FirstLine(log[end..]);
    }
    payload := Some(batch);
  }

  // -------------------------------------------------------------------- runs

  /** The checkpoint: an offset, the identity of the file, and the fingerprint of everything before
      the offset, which is that text itself here. */
  datatype Checkpoint = Checkpoint(offset: nat, file: nat, fingerprint: string)

  /** The audit log, the saved checkpoint, and the batches whose upload was followed by a commit. */
  datatype State = State(file: nat, log: string, checkpoint: Option<Checkpoint>, committed: seq<seq<Record>>)

  datatype Event =
    | Appended(text: string)
    | Replaced(file: nat, text: string)                 // rotated, truncated or rewritten between runs
    | Exported(payload: seq<Record>, end: nat, meanwhile: string)
    | Failed(meanwhile: string)                         // refused, up to date, or stopped before the commit

  /** The checkpoint is accepted: same file, same text before the offset. */
  predicate Loads(s: State) {
    s.checkpoint.Some? ==>
      var c := s.checkpoint.value;
      c.file == s.file && c.offset <= |s.log| && s.log[..c.offset] == c.fingerprint
  }

  function Offset(s: State): nat {
    if s.checkpoint.Some? then s.checkpoint.value.offset else 0
  }

  /** A run that commits: the batch is read, uploaded and verified, the text before its end is checked
      again, and only then is the checkpoint replaced. The log may grow meanwhile. */
  ghost predicate Step(read: Reader, max: int, s: State, e: Event, t: State) {
    match e
    case Appended(text) => t == s.(log := s.log + text)
    case Replaced(file, text) => t == s.(file := file, log := text)
    case Exported(payload, end, meanwhile) =>
      && Loads(s) && Batch(read, s.log, Offset(s), max, payload, end) && payload != []
      && t == State.State(s.file, s.log + meanwhile, Some(Checkpoint(end, s.file, s.log[..end])),
                          s.committed + [payload])
    case Failed(meanwhile) => t == s.(log := s.log + meanwhile)
  }

  function Flat(batches: seq<seq<Record>>): seq<Record> {
    if batches == [] then [] else Flat(batches[..|batches| - 1]) + batches[|batches| - 1]
  }

  /** What has been committed is exactly what the text before the checkpoint says. */
  ghost predicate Inv(read: Reader, s: State) {
    match s.checkpoint
    case None => s.committed == []
    case Some(c) =>
      && c.offset == |c.fingerprint| && Whole(c.fingerprint)
      && Flat(s.committed) == Audits(read, Lines(c.fingerprint))
  }

  lemma FlatOneMore(batches: seq<seq<Record>>, batch: seq<Record>)
    ensures Flat(batches + [batch]) == Flat(batches) + batch
  {
    assert (batches + [batch])[..|batches|] == batches;
  }

  lemma ExportKeepsInv(read: Reader, max: int, s: State, e: Event, t: State)
    requires Inv(read, s) && e.Exported? && Step(read, max, s, e, t)
    ensures Inv(read, t)
  {
    var before, added := s.log[..Offset(s)], s.log[Offset(s)..e.end];
    assert before + added == s.log[..e.end];
    assert Whole(before) && Flat(s.committed) == Audits(read, Lines(before)) by {
      if s.checkpoint.None? {
        assert before == "" && Lines("") == [];
      }
    }
    AuditsOfSum(read, before, added);
    FlatOneMore(s.committed, e.payload);
  }

  ghost predicate Run(read: Reader, max: int, states: seq<State>, events: seq<Event>) {
    && |states| == |events| + 1
    && forall k :: 0 <= k < |events| ==> Step(read, max, states[k], events[k], states[k + 1])
  }

  predicate FreshStart(s: State) {
    s.checkpoint.None? && s.committed == []
  }

  lemma {:induction false} RunKeepsInv(read: Reader, max: int, states: seq<State>, events: seq<Event>)
    requires Run(read, max, states, events) && FreshStart(states[0])
    ensures Inv(read, states[|events|])
    decreases |events|
  {
    if events != [] {
      var n := |events| - 1;
      RunKeepsInv(read, max, states[..n + 1], events[..n]);
      assert Step(read, max, states[n], events[n], states[n + 1]);
      if events[n].Exported? {
        ExportKeepsInv(read, max, states[n], events[n], states[n + 1]);
      }
    }
  }

  /** Across any sequence of runs, crashes and log rotations, the committed batches concatenate to
      exactly the audit lines before the checkpoint offset, in order, whenever a run accepts the
      checkpoint against the log it finds. */
  lemma ExportsAreExact(read: Reader, max: int, states: seq<State>, events: seq<Event>)
    requires Run(read, max, states, events) && FreshStart(states[0])
    requires Loads(states[|events|])
    ensures var s := states[|events|];
            && Offset(s) <= |s.log| && Whole(s.log[..Offset(s)])
            && Flat(s.committed) == Audits(read, Lines(s.log[..Offset(s)]))
  {
    RunKeepsInv(read, max, states, events);
    var s := states[|events|];
    if s.checkpoint.None? {
      assert s.log[..0] == "" && Lines("") == [];
    }
  }
}
