// What a received text loads as, whatever is wrong with it: which lines become records, and which line or gap each
// issue code stands for.

module LoadedLines {
  import opened Wrappers
  import opened Sequences
  import opened Vocabulary
  import opened Records
  import opened Loader
  import opened LossDetection

  // ---------- what a line says ----------

  predicate EndsAt(lines: seq<Line>, k: nat) {
    && 1 <= k < |lines| && GoodEvent(lines[k], k)
    && lines[k].body.EndMark? && lines[k].body.counts.Some?
  }

  predicate AfterEnd(lines: seq<Line>, k: nat) {
    exists j: nat :: j < k && EndsAt(lines, j)
  }

  predicate Starts(lines: seq<Line>) {
    lines != [] && GoodEvent(lines[0], 0) && lines[0].body == StartMark(true)
  }

  // The line that ends the capture is the first that does.
  predicate IsEnd(lines: seq<Line>, k: nat, e: End) {
    && EndsAt(lines, k) && !AfterEnd(lines, k)
    && Some(e.observerFailures) == lines[k].observerFailures
    && Some(e.callbackFailures) == lines[k].callbackFailures
    && Some(e.counts) == lines[k].body.counts
  }

  // A line between start and end that holds a record.
  predicate HoldsRecord(lines: seq<Line>, k: nat, r: Record) {
    && 1 <= k < |lines| && !AfterEnd(lines, k) && GoodData(lines[k], k)
    && r == lines[k].body.record.(sequence := k)
  }

  // A line that is at fault, and the code that says how.
  predicate AtFault(lines: seq<Line>, k: nat, code: Code)
    requires k < |lines|
  {
    var line := lines[k];
    match code
    case MalformedCapture => line.Unparsable? || (line.Event? && line.sequence == Some(k) && !GoodEvent(line, k))
    case WrongSchema => line.ForeignSchema?
    case AmbiguousOrder => line.Event? && line.sequence != Some(k)
    case InvalidCaptureStart => k == 0 && GoodEvent(line, k) && line.body != StartMark(true)
    case RecordsAfterCaptureEnd => k > 0 && GoodEvent(line, k) && AfterEnd(lines, k)
    case InvalidCaptureEnd => k > 0 && GoodEvent(line, k) && !AfterEnd(lines, k) && line.body == EndMark(None)
    case InvalidRecord =>
      && k > 0 && GoodEvent(line, k) && !AfterEnd(lines, k)
      && (line.body.StartMark? || (line.body.Data? && line.body.record.kind.UnknownKind?))
    case _ => false
  }

  predicate SomeAtFault(lines: seq<Line>, code: Code) {
    exists k: nat :: k < |lines| && AtFault(lines, k, code)
  }

  // ---------- one line more ----------

  ghost predicate Tells(p: Progress, lines: seq<Line>, terminated: bool) {
    && (forall x :: x in p.seen ==> 0 <= x < |lines|)
    && (p.started <==> Starts(lines))
    && (p.end.Some? <==> AfterEnd(lines, |lines|))
    && (p.end.Some? ==> exists k: nat :: IsEnd(lines, k, p.end.value))
    && (forall r :: r in p.records <==> exists k: nat :: HoldsRecord(lines, k, r))
    && (forall code :: code in p.issues <==> (code == UnterminatedCapture && !terminated) || SomeAtFault(lines, code))
  }

  // What a line says does not depend on the lines after it.
  lemma OneLineMore(front: seq<Line>, line: Line)
    ensures var lines := front + [line];
            && (forall k: nat :: k < |front| ==> (EndsAt(lines, k) <==> EndsAt(front, k)))
            && (forall k: nat :: k <= |front| ==> (AfterEnd(lines, k) <==> AfterEnd(front, k)))
            && (front != [] ==> (Starts(lines) <==> Starts(front)))
            && (forall k: nat, r :: k < |front| ==> (HoldsRecord(lines, k, r) <==> HoldsRecord(front, k, r)))
            && (forall k: nat, e :: k < |front| ==> (IsEnd(lines, k, e) <==> IsEnd(front, k, e)))
  {}

  lemma OneFaultMore(front: seq<Line>, line: Line, code: Code)
    ensures SomeAtFault(front + [line], code)
            <==> SomeAtFault(front, code) || AtFault(front + [line], |front|, code)
  {
    var lines := front + [line];
    OneLineMore(front, line);
    assert forall k: nat :: k < |front| ==> lines[k] == front[k];
    forall k: nat | k < |front| ensures AtFault(lines, k, code) <==> AtFault(front, k, code) {}
    if SomeAtFault(front, code) {
      var k: nat :| k < |front| && AtFault(front, k, code);
      assert AtFault(lines, k, code);
    }
    if SomeAtFault(lines, code) {
      var k: nat :| k < |lines| && AtFault(lines, k, code);
      if k < |front| { assert AtFault(front, k, code); }
    }
  }

  // The code of the line that is read next, if it is at fault.
  ghost function Fault(p: Progress, line: Line, k: nat): Option<Code> {
    match line
    case Unparsable => Some(MalformedCapture)
    case ForeignSchema => Some(WrongSchema)
    case Event(sequence, _, _, body) =>
      if sequence != Some(k) then Some(AmbiguousOrder)
      else if !GoodEvent(line, k) then Some(MalformedCapture)
      else if k == 0 then if body == StartMark(true) then None else Some(InvalidCaptureStart)
      else if p.end.Some? then Some(RecordsAfterCaptureEnd)
      else if body == EndMark(None) then Some(InvalidCaptureEnd)
      else if body.StartMark? || (body.Data? && body.record.kind.UnknownKind?) then Some(InvalidRecord)
      else None
  }

  lemma ReadLineAdds(p: Progress, line: Line, k: nat, code: Code)
    requires k !in p.seen
    ensures code in ReadLine(p, line, k).issues <==> code in p.issues || Fault(p, line, k) == Some(code)
  {
    var f := Fault(p, line, k);
    var next := ReadLine(p, line, k).issues;
    if f.Some? { AddNewMembers(p.issues, f.value); }
    assert if f.None? then next == p.issues
           else next == AddNew(p.issues, f.value) || next == p.issues + [f.value];
  }

  lemma FaultIsAtFault(p: Progress, lines: seq<Line>, k: nat, code: Code)
    requires k < |lines| && (p.end.Some? <==> AfterEnd(lines, k))
    ensures Fault(p, lines[k], k) == Some(code) <==> AtFault(lines, k, code)
  {
    hide AfterEnd;
  }

  // The issues one line adds.
  lemma LineIssues(p: Progress, front: seq<Line>, line: Line, terminated: bool, code: Code)
    requires Tells(p, front, terminated)
    ensures code in ReadLine(p, line, |front|).issues <==> code in p.issues || AtFault(front + [line], |front|, code)
  {
    hide *;
    var lines := front + [line];
    TellsEnd(p, front, terminated);
    OneLineMore(front, line);
    ReadLineAdds(p, line, |front|, code);
    FaultIsAtFault(p, lines, |front|, code);
  }

  lemma TellsEnd(p: Progress, lines: seq<Line>, terminated: bool)
    requires Tells(p, lines, terminated)
    ensures p.end.Some? <==> AfterEnd(lines, |lines|)
    ensures |lines| !in p.seen
  {}

  // What one line adds to the records, and whether it starts or ends the capture.
  lemma LineRecords(p: Progress, front: seq<Line>, line: Line, terminated: bool)
    requires Tells(p, front, terminated)
    ensures var lines, q, n := front + [line], ReadLine(p, line, |front|), |front|;
            && q.seen <= p.seen + {n}
            && (q.started <==> p.started || (front == [] && Starts(lines)))
            && (q.end.Some? <==> AfterEnd(lines, n) || EndsAt(lines, n))
            && (p.end.Some? ==> q.end == p.end)
            && (p.end.None? && q.end.Some? ==> IsEnd(lines, n, q.end.value))
            && (forall r :: r in q.records <==> r in p.records || HoldsRecord(lines, n, r))
  {
    hide Tells, SomeAtFault, AtFault;
    var lines := front + [line];
    assert lines[|front|] == line;
    TellsEnd(p, front, terminated);
    OneLineMore(front, line);
  }

  lemma {:induction false} ReadTells(lines: seq<Line>, terminated: bool)
    ensures Tells(Read(lines, terminated), lines, terminated)
  {
    if lines != [] {
      var front, line := lines[..|lines| - 1], lines[|lines| - 1];
      assert lines == front + [line];
      var p := Read(front, terminated);
      ReadTells(front, terminated);
      LineRecords(p, front, line, terminated);
      OneLineMore(front, line);
      forall code
        ensures code in ReadLine(p, line, |front|).issues
                <==> (code == UnterminatedCapture && !terminated) || SomeAtFault(lines, code)
      {
        LineIssues(p, front, line, terminated, code);
        OneFaultMore(front, line, code);
      }
      RecordsOneMore(p, front, line, terminated);
      EndOneMore(p, front, line, terminated);
    }
  }

  lemma RecordsOneMore(p: Progress, front: seq<Line>, line: Line, terminated: bool)
    requires Tells(p, front, terminated)
    ensures forall r :: r in ReadLine(p, line, |front|).records
                        <==> exists k: nat :: HoldsRecord(front + [line], k, r)
  {
    hide ReadLine, SomeAtFault, AtFault, AfterEnd, Starts, EndsAt, GoodData;
    LineRecords(p, front, line, terminated);
    OneLineMore(front, line);
  }

  lemma EndOneMore(p: Progress, front: seq<Line>, line: Line, terminated: bool)
    requires Tells(p, front, terminated)
    ensures var q, lines := ReadLine(p, line, |front|), front + [line];
            && (q.end.Some? <==> AfterEnd(lines, |lines|))
            && (q.end.Some? ==> exists k: nat :: IsEnd(lines, k, q.end.value))
  {
    hide ReadLine, SomeAtFault, AtFault, Starts, HoldsRecord;
    LineRecords(p, front, line, terminated);
    OneLineMore(front, line);
    var lines := front + [line];
    if p.end.Some? {
      var k: nat :| IsEnd(front, k, p.end.value);
      assert IsEnd(lines, k, p.end.value);
    }
  }

  // ---------- the whole text ----------

  predicate Differ(counts: EndCounts, records: seq<Record>) {
    || counts.nativeStarts != CountKind(records, NativeStart)
    || counts.nativeTerminals != CountKind(records, NativeTerminal)
    || counts.codeStarts != CountKind(records, CodeStart)
    || counts.codeTerminals != CountKind(records, CodeTerminal)
  }

  lemma FinishedSays(p: Progress)
    ensures var c := Finished(p);
            && c.started == p.started && c.ended == p.end.Some? && c.records == p.records && NoDuplicates(c.issues)
            && (p.end.None? ==> c.observerFailures.None? && c.callbackFailures.None?)
            && (p.end.Some? ==> c.observerFailures == Some(p.end.value.observerFailures)
                                && c.callbackFailures == Some(p.end.value.callbackFailures))
            && (forall code :: code in c.issues <==>
                  || code in p.issues || (code == InvalidCaptureStart && !p.started)
                  || (code == MissingCaptureEnd && p.end.None?)
                  || (code == CountMismatch && p.end.Some? && Differ(p.end.value.counts, p.records)))
  {
    hide CountKind;
  }

  // EVERY TEXT, damaged or not: it counts as started exactly if its first line is a good start, and as ended exactly
  // if some later good line is an end, whose counters are then the capture's; its records are exactly those of the
  // good lines in between, each under the number of its line; and every issue code is there exactly for its own cause.
  lemma LoadedExactly(lines: seq<Line>, terminated: bool)
    requires 0 < |lines| <= 20001
    ensures var c := Load(Bytes(lines, terminated));
            && (c.started <==> Starts(lines))
            && (c.ended <==> AfterEnd(lines, |lines|))
            && (!c.ended ==> c.observerFailures.None? && c.callbackFailures.None?)
            && (forall r :: r in c.records <==> exists k: nat :: HoldsRecord(lines, k, r))
            && (forall i, j :: 0 <= i < j < |c.records| ==> c.records[i].sequence < c.records[j].sequence)
            && (c.ended ==> exists k: nat, e ::
                  && IsEnd(lines, k, e) && c.observerFailures == Some(e.observerFailures)
                  && c.callbackFailures == Some(e.callbackFailures)
                  && (CountMismatch in c.issues <==> Differ(e.counts, c.records)))
            && (UnterminatedCapture in c.issues <==> !terminated)
            && (InvalidCaptureStart in c.issues <==> !c.started)
            && (MissingCaptureEnd in c.issues <==> !c.ended)
            && (!c.ended ==> CountMismatch !in c.issues)
            && NoDuplicates(c.issues)
            && (forall code :: code !in {UnterminatedCapture, InvalidCaptureStart, MissingCaptureEnd, CountMismatch} ==>
                  (code in c.issues <==> SomeAtFault(lines, code)))
  {
    hide AtFault, CountKind, HoldsRecord, SomeAtFault, Finished, Read, Differ, Starts, AfterEnd, IsEnd;
    var p := Read(lines, terminated);
    ReadTells(lines, terminated);
    RecordsInLineOrder(lines, terminated);
    FinishedSays(p);
    StartAtFault(lines);
    NeverOfALine(lines);
    if p.end.Some? { var k: nat :| IsEnd(lines, k, p.end.value); }
  }

  lemma StartAtFault(lines: seq<Line>)
    ensures SomeAtFault(lines, InvalidCaptureStart) ==> !Starts(lines)
  {}

  // Three codes are never those of a line.
  lemma NeverOfALine(lines: seq<Line>)
    ensures !SomeAtFault(lines, UnterminatedCapture) && !SomeAtFault(lines, MissingCaptureEnd)
    ensures !SomeAtFault(lines, CountMismatch)
  {}
}
