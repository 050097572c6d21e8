// `load_runtime_observations` (container/native_observer.py:97-264): parsed lines in, capture and issues out.

module Loader {
  import opened Wrappers
  import opened Sequences
  import opened Vocabulary
  import opened Records
  import opened Builder

  const MAX_RECORDS := 20001

  datatype EndCounts = EndCounts(nativeStarts: nat, nativeTerminals: nat, codeStarts: nat, codeTerminals: nat,
                                 unavailableFields: nat)

  // The kind-specific part of an event. `expected` says that every field of the capture start is the expected
  // one; an end whose counters are not all natural numbers has no counts.
  datatype Body = StartMark(expected: bool) | EndMark(counts: Option<EndCounts>) | Data(record: Record)

  // One line after JSON parsing. None stands for a value that is not an integer.
  datatype Line =
    | Unparsable
    | ForeignSchema
    | Event(sequence: Option<int>, observerFailures: Option<int>, callbackFailures: Option<int>, body: Body)

  // Where the bytes come from: a file that cannot be had, or a text and whether it ends with a newline.
  datatype Source =
    | NoFile
    | UnreadableFile
    | Bytes(lines: seq<Line>, terminated: bool)

  datatype End = End(observerFailures: int, callbackFailures: int, counts: EndCounts)

  datatype Progress = Progress(issues: seq<Code>, records: seq<Record>, started: bool, end: Option<End>, seen: set<int>)

  function EmptyCaptureOf(reason: Code): Capture {
    Capture(false, false, [], None, None, [reason])
  }

  predicate Counter(n: Option<int>) { n.Some? && n.value >= 0 }

  function ReadLine(p: Progress, line: Line, k: nat): Progress {
    match line
    case Unparsable => p.(issues := AddNew(p.issues, MalformedCapture))
    case ForeignSchema => p.(issues := AddNew(p.issues, WrongSchema))
    case Event(sequence, observerFailures, callbackFailures, body) =>
      if !Counter(sequence) || sequence.value in p.seen || sequence.value != k then
        p.(issues := AddNew(p.issues, AmbiguousOrder))
      else ReadEvent(p.(seen := p.seen + {k}), line, k)
  }

  function ReadEvent(p: Progress, line: Line, k: nat): Progress
    requires line.Event?
  {
    if !Counter(line.observerFailures) || !Counter(line.callbackFailures) then
      p.(issues := AddNew(p.issues, MalformedCapture))
    else if k == 0 then
      if line.body == StartMark(true) then p.(started := true)
      else p.(issues := p.issues + [InvalidCaptureStart])
    else if p.end.Some? then p.(issues := p.issues + [RecordsAfterCaptureEnd])
    else
      match line.body
      case EndMark(Some(counts)) =>
        p.(end := Some(End(line.observerFailures.value, line.callbackFailures.value, counts)))
      case EndMark(None) => p.(issues := p.issues + [InvalidCaptureEnd])
      case StartMark(_) => p.(issues := p.issues + [InvalidRecord])
      case Data(record) =>
        if record.kind.UnknownKind? then p.(issues := p.issues + [InvalidRecord])
        else p.(records := p.records + [record.(sequence := k)])
  }

  function Read(lines: seq<Line>, terminated: bool): Progress {
    if lines == [] then Progress(if terminated then [] else [UnterminatedCapture], [], false, None, {})
    else ReadLine(Read(lines[..|lines| - 1], terminated), lines[|lines| - 1], |lines| - 1)
  }

  function CountKind(records: seq<Record>, kind: RecordKind): nat {
    if records == [] then 0
    else CountKind(records[..|records| - 1], kind) + if records[|records| - 1].kind == kind then 1 else 0
  }

  predicate CountsMatch(counts: EndCounts, records: seq<Record>) {
    && counts.nativeStarts == CountKind(records, NativeStart)
    && counts.nativeTerminals == CountKind(records, NativeTerminal)
    && counts.codeStarts == CountKind(records, CodeStart)
    && counts.codeTerminals == CountKind(records, CodeTerminal)
  }

  function FinalIssues(p: Progress): seq<Code> {
    var i1 := if !p.started && InvalidCaptureStart !in p.issues then p.issues + [InvalidCaptureStart] else p.issues;
    var i2 := if p.end.None? then i1 + [MissingCaptureEnd] else i1;
    if p.end.Some? && !CountsMatch(p.end.value.counts, p.records) then i2 + [CountMismatch] else i2
  }

  function Finished(p: Progress): Capture {
    Capture(
      p.started, p.end.Some?, p.records,
      if p.end.Some? then Some(p.end.value.observerFailures) else None,
      if p.end.Some? then Some(p.end.value.callbackFailures) else None,
      Dedupe(FinalIssues(p)))
  }

  function Load(source: Source): Capture {
    match source
    case NoFile => EmptyCaptureOf(MissingCapture)
    case UnreadableFile => EmptyCaptureOf(MalformedCapture)
    case Bytes(lines, terminated) =>
      if lines == [] then EmptyCaptureOf(EmptyCapture)
      else if |lines| > MAX_RECORDS then EmptyCaptureOf(MalformedCapture)
      else Finished(Read(lines, terminated))
  }

  // `RuntimeObservationTransport.finish`: a transport issue joins the capture's own.
  function Received(source: Source, transportIssue: Option<Code>): Capture {
    var c := Load(source);
    if transportIssue.Some? then c.(issues := AddNew(c.issues, transportIssue.value)) else c
  }

  method LoadRuntimeObservations(source: Source) returns (c: Capture)
    ensures c == Load(source)
  {
    match source
    case NoFile => return EmptyCaptureOf(MissingCapture);
    case UnreadableFile => return EmptyCaptureOf(MalformedCapture);
    case Bytes(lines, terminated) =>
      if lines == [] {
        return EmptyCaptureOf(EmptyCapture);
      }
      if |lines| > MAX_RECORDS {
        return EmptyCaptureOf(MalformedCapture);
      }
      c := ReadLines(lines, terminated);
  }

  // The loop over the lines and the checks after it.
  method ReadLines(lines: seq<Line>, terminated: bool) returns (c: Capture)
    ensures c == Finished(Read(lines, terminated))
  {
    var issues: seq<Code> := if terminated then [] else [UnterminatedCapture];
    var records: seq<Record> := [];
    var started := false;
    var end: Option<End> := None;
    var seen: set<int> := {};
    var nativeStarts, nativeTerminals, codeStarts, codeTerminals := 0, 0, 0, 0;
    for k := 0 to |lines|
      invariant Progress(issues, records, started, end, seen) == Read(lines[..k], terminated)
    {
      SnocPrefix(lines, k);
      var line := lines[k];
      if line.Unparsable? {
        if MalformedCapture !in issues { issues := issues + [MalformedCapture]; }
        continue;
      }
      if line.ForeignSchema? {
        if WrongSchema !in issues { issues := issues + [WrongSchema]; }
        continue;
      }
      if !Counter(line.sequence) || line.sequence.value in seen || line.sequence.value != k {
        if AmbiguousOrder !in issues { issues := issues + [AmbiguousOrder]; }
        continue;
      }
      seen := seen + {line.sequence.value};
      if !Counter(line.observerFailures) || !Counter(line.callbackFailures) {
        if MalformedCapture !in issues { issues := issues + [MalformedCapture]; }
        continue;
      }
      if k == 0 {
        if line.body != StartMark(true) {
          issues := issues + [InvalidCaptureStart];
        } else {
          started := true;
        }
        continue;
      }
      if end.Some? {
        issues := issues + [RecordsAfterCaptureEnd];
        continue;
      }
      match line.body
      case EndMark(counts) =>
        if counts.None? {
          issues := issues + [InvalidCaptureEnd];
        } else {
          end := Some(End(line.observerFailures.value, line.callbackFailures.value, counts.value));
        }
      case StartMark(_) =>
        issues := issues + [InvalidRecord];
      case Data(record) =>
        if record.kind.UnknownKind? {
          issues := issues + [InvalidRecord];
        } else {
          records := records + [record.(sequence := k)];
        }
    }
    assert lines[..|lines|] == lines;
    ghost var p := Progress(issues, records, started, end, seen);
    if !started && InvalidCaptureStart !in issues {
      issues := issues + [InvalidCaptureStart];
    }
    if end.None? {
      issues := issues + [MissingCaptureEnd];
    }
    for i := 0 to |records|
      invariant nativeStarts == CountKind(records[..i], NativeStart)
      invariant nativeTerminals == CountKind(records[..i], NativeTerminal)
      invariant codeStarts == CountKind(records[..i], CodeStart)
      invariant codeTerminals == CountKind(records[..i], CodeTerminal)
    {
      SnocPrefix(records, i);
      match records[i].kind
      case NativeStart => nativeStarts := nativeStarts + 1;
      case NativeTerminal => nativeTerminals := nativeTerminals + 1;
      case CodeStart => codeStarts := codeStarts + 1;
      case CodeTerminal => codeTerminals := codeTerminals + 1;
      case UnknownKind =>
    }
    assert records[..|records|] == records;
    if end.Some? {
      var counts := end.value.counts;
      if counts.nativeStarts != nativeStarts || counts.nativeTerminals != nativeTerminals
         || counts.codeStarts != codeStarts || counts.codeTerminals != codeTerminals {
        issues := issues + [CountMismatch];
      }
    }
    assert issues == FinalIssues(p);
    c := Capture(started, end.Some?, records,
                 if end.Some? then Some(end.value.observerFailures) else None,
                 if end.Some? then Some(end.value.callbackFailures) else None,
                 Dedupe(issues));
  }
}

// What issue-free means, and why nothing can be lost unnoticed.
module LossDetection {
  import opened Wrappers
  import opened Sequences
  import opened Vocabulary
  import opened Records
  import opened Builder
  import opened Agreement
  import opened Loader

  // ---------- the loader's captures ----------

  lemma {:induction false} ReadVocabulary(lines: seq<Line>, terminated: bool)
    ensures forall c :: c in Read(lines, terminated).issues ==> LoaderCode(c)
  {
    if lines != [] {
      var p := Read(lines[..|lines| - 1], terminated);
      ReadVocabulary(lines[..|lines| - 1], terminated);
      AddNewMembers(p.issues, MalformedCapture);
      AddNewMembers(p.issues, WrongSchema);
      AddNewMembers(p.issues, AmbiguousOrder);
    }
  }

  // Whatever the source and the transport, the capture is one the builder can handle.
  lemma LoaderReturnsLoaderCaptures(source: Source, transportIssue: Option<Code>)
    requires transportIssue.Some? ==> transportIssue.value in {MalformedCapture, CaptureIoError}
    ensures LoaderCapture(Received(source, transportIssue))
  {
    if source.Bytes? && source.lines != [] && |source.lines| <= MAX_RECORDS {
      var p := Read(source.lines, source.terminated);
      ReadVocabulary(source.lines, source.terminated);
      if !p.started { assert InvalidCaptureStart in FinalIssues(p); }
    }
    if transportIssue.Some? { AddNewMembers(Load(source).issues, transportIssue.value); }
  }

  // Where nothing can be read the capture is empty, unstarted and open, and its only issue says why.
  lemma NothingLoaded(lines: seq<Line>, terminated: bool)
    ensures Load(NoFile) == Capture(false, false, [], None, None, [MissingCapture])
    ensures Load(UnreadableFile) == Capture(false, false, [], None, None, [MalformedCapture])
    ensures Load(Bytes([], terminated)) == Capture(false, false, [], None, None, [EmptyCapture])
    ensures |lines| > 20001 ==> Load(Bytes(lines, terminated)) == Load(UnreadableFile)
  {}

  // The transport's own issue joins those of the capture and changes nothing else.
  lemma TransportIssueJoins(source: Source, issue: Code)
    ensures var c, d := Load(source), Received(source, Some(issue));
            && Received(source, None) == c
            && (forall x :: x in d.issues <==> x in c.issues || x == issue)
            && d.started == c.started && d.ended == c.ended && d.records == c.records
            && d.observerFailures == c.observerFailures && d.callbackFailures == c.callbackFailures
  {
    AddNewMembers(Load(source).issues, issue);
  }

  predicate InLineOrder(rs: seq<Record>, bound: nat) {
    && (forall i :: 0 <= i < |rs| ==> 1 <= rs[i].sequence < bound && !rs[i].kind.UnknownKind?)
    && (forall i, j :: 0 <= i < j < |rs| ==> rs[i].sequence < rs[j].sequence)
  }

  // Loaded records are in line order, never on line zero, and of a known kind.
  lemma {:induction false} RecordsInLineOrder(lines: seq<Line>, terminated: bool)
    ensures InLineOrder(Read(lines, terminated).records, |lines|)
  {
    if lines != [] {
      hide ReadLine;
      RecordsInLineOrder(lines[..|lines| - 1], terminated);
      ReadLineAppends(Read(lines[..|lines| - 1], terminated), lines[|lines| - 1], |lines| - 1);
    }
  }

  lemma ReadLineAppends(p: Progress, line: Line, k: nat)
    ensures var next := ReadLine(p, line, k).records;
            || next == p.records
            || (k >= 1 && line.Event? && line.body.Data? && !line.body.record.kind.UnknownKind?
                && next == p.records + [line.body.record.(sequence := k)])
  {}

  // ---------- issue-free input ----------

  predicate GoodEvent(line: Line, k: nat) {
    && line.Event? && line.sequence == Some(k)
    && line.observerFailures.Some? && line.observerFailures.value >= 0
    && line.callbackFailures.Some? && line.callbackFailures.value >= 0
  }

  predicate GoodData(line: Line, k: nat) {
    GoodEvent(line, k) && line.body.Data? && !line.body.record.kind.UnknownKind?
  }

  function RecordsOf(lines: seq<Line>): seq<Record> {
    if lines == [] then []
    else
      var last := lines[|lines| - 1];
      RecordsOf(lines[..|lines| - 1])
      + if last.Event? && last.body.Data? then [last.body.record.(sequence := |lines| - 1)] else []
  }

  // Line k carries sequence k; one start, first; one end, last, with matching counts; data in between.
  predicate Transcript(lines: seq<Line>) {
    && 2 <= |lines|
    && GoodEvent(lines[0], 0) && lines[0].body == StartMark(true)
    && (forall k :: 1 <= k < |lines| - 1 ==> GoodData(lines[k], k))
    && GoodEvent(lines[|lines| - 1], |lines| - 1)
    && lines[|lines| - 1].body.EndMark? && lines[|lines| - 1].body.counts.Some?
    && CountsMatch(lines[|lines| - 1].body.counts.value, RecordsOf(lines))
  }

  // A transcript that may still be running: no end yet.
  predicate Open(lines: seq<Line>) {
    lines != [] ==>
      && GoodEvent(lines[0], 0) && lines[0].body == StartMark(true)
      && forall k :: 1 <= k < |lines| ==> GoodData(lines[k], k)
  }

  // A transcript up to and including its end.
  predicate Ended(lines: seq<Line>) {
    && 2 <= |lines| && Open(lines[..|lines| - 1])
    && GoodEvent(lines[|lines| - 1], |lines| - 1)
    && lines[|lines| - 1].body.EndMark? && lines[|lines| - 1].body.counts.Some?
  }

  lemma OpenSnoc(lines: seq<Line>)
    requires lines != []
    ensures Open(lines) <==>
            (&& Open(lines[..|lines| - 1])
             && if |lines| == 1 then GoodEvent(lines[0], 0) && lines[0].body == StartMark(true)
                else GoodData(lines[|lines| - 1], |lines| - 1))
  {}

  predicate GoodEnd(line: Line, k: nat) {
    GoodEvent(line, k) && line.body.EndMark? && line.body.counts.Some?
  }

  // One more line keeps the reading silent exactly when it is the next line of a transcript.
  lemma SilentStep(p: Progress, line: Line, k: nat)
    requires forall x :: x in p.seen ==> 0 <= x < k
    ensures var next := ReadLine(p, line, k);
            && (next.issues == [] <==>
                  && p.issues == []
                  && if k == 0 then GoodEvent(line, 0) && line.body == StartMark(true)
                     else p.end.None? && (GoodData(line, k) || GoodEnd(line, k)))
            && (forall x :: x in next.seen ==> 0 <= x <= k)
            && (next.issues == [] ==>
                  && next.started == (p.started || k == 0)
                  && next.records == p.records + (if k >= 1 && GoodData(line, k)
                                                  then [line.body.record.(sequence := k)] else [])
                  && next.end == if k >= 1 && GoodEnd(line, k)
                                 then Some(End(line.observerFailures.value, line.callbackFailures.value,
                                               line.body.counts.value))
                                 else p.end)
  {}

  // What has been read when nothing was wrong.
  ghost predicate ReadSoFar(p: Progress, lines: seq<Line>) {
    && (Open(lines) ==> p.end.None? && (lines != [] ==> p.started))
    && (Ended(lines) ==>
          && p.started
          && p.end == Some(End(lines[|lines| - 1].observerFailures.value,
                               lines[|lines| - 1].callbackFailures.value,
                               lines[|lines| - 1].body.counts.value)))
    && (Open(lines) || Ended(lines) ==> p.records == RecordsOf(lines))
  }

  // Reading stays silent exactly on transcripts, open or ended.
  lemma {:induction false} SilentReading(lines: seq<Line>)
    ensures Read(lines, true).issues == [] <==> Open(lines) || Ended(lines)
    ensures ReadSoFar(Read(lines, true), lines)
    ensures forall x :: x in Read(lines, true).seen ==> 0 <= x < |lines|
  {
    if lines != [] {
      var front, last := lines[..|lines| - 1], lines[|lines| - 1];
      hide ReadLine, Open;
      SilentReading(front);
      OpenSnoc(lines);
      SilentStep(Read(front, true), last, |lines| - 1);
      if Ended(front) { NotTwice(lines); }
      if |lines| == 1 { OpenOfNone(); }
      if Open(lines) && |lines| >= 2 { assert !GoodEnd(last, |lines| - 1); }
    } else {
      OpenOfNone();
    }
  }

  lemma OpenOfNone()
    ensures Open([])
  {}

  lemma NotTwice(lines: seq<Line>)
    requires lines != [] && Ended(lines[..|lines| - 1])
    ensures !Ended(lines) && !Open(lines)
  {}

  lemma {:induction false} UnterminatedStays(lines: seq<Line>)
    ensures UnterminatedCapture in Read(lines, false).issues
  {
    if lines != [] {
      var p := Read(lines[..|lines| - 1], false);
      UnterminatedStays(lines[..|lines| - 1]);
      AddNewMembers(p.issues, MalformedCapture);
      AddNewMembers(p.issues, WrongSchema);
      AddNewMembers(p.issues, AmbiguousOrder);
    }
  }

  lemma TranscriptIsEnded(lines: seq<Line>)
    ensures Transcript(lines) <==>
            Ended(lines) && CountsMatch(lines[|lines| - 1].body.counts.value, RecordsOf(lines))
  {}

  // THE LOADER REPORTS NO ISSUE exactly on a terminated, complete transcript of bounded length.
  lemma IssueFreeExactly(lines: seq<Line>, terminated: bool)
    ensures Load(Bytes(lines, terminated)).issues == []
            <==> terminated && |lines| <= MAX_RECORDS && Transcript(lines)
  {
    if lines != [] && |lines| <= MAX_RECORDS {
      var p := Read(lines, terminated);
      DedupeEmpty(FinalIssues(p));
      TranscriptIsEnded(lines);
      if terminated {
        SilentReading(lines);
      } else {
        UnterminatedStays(lines);
        assert UnterminatedCapture in FinalIssues(p);
      }
    }
  }

  // ---------- loss ----------

  // The lossy channel delivered the lines of `sent` at positions `at`, in order.
  predicate Delivered(received: seq<Line>, sent: seq<Line>, at: seq<nat>) {
    && |at| == |received|
    && (forall k :: 0 <= k < |at| ==> at[k] < |sent| && received[k] == sent[at[k]])
    && (forall j, k :: 0 <= j < k < |at| ==> at[j] < at[k])
  }

  // Of a full transcript, what arrives is issue-free if and only if nothing is missing.
  lemma LossIsDetected(sent: seq<Line>, received: seq<Line>, at: seq<nat>, terminated: bool)
    requires Transcript(sent) && Delivered(received, sent, at)
    ensures Load(Bytes(received, terminated)).issues == []
            <==> terminated && received == sent && |sent| <= MAX_RECORDS
  {
    IssueFreeExactly(received, terminated);
    if Transcript(received) {
      var n := |received| - 1;
      forall k | 0 <= k <= n ensures at[k] == k {
        assert received[k].sequence == Some(k);
        assert sent[at[k]].sequence == Some(at[k]);
      }
      assert sent[at[n]].body.EndMark?;
      assert at[n] == |sent| - 1;
      assert received == sent;
    }
  }

  // A line cut off by a truncated stream is never silent either, wherever the cut falls.
  lemma DamageIsDetected(received: seq<Line>, terminated: bool, k: nat)
    requires k < |received| && (received[k].Unparsable? || received[k].ForeignSchema?)
    ensures Load(Bytes(received, terminated)).issues != []
  {
    IssueFreeExactly(received, terminated);
  }
}
