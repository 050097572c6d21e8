// The pipeline from the loader to the published evidence, and what fails without the observer's field objects.

module LoadedEvidence {
  import opened Wrappers
  import opened Vocabulary
  import opened Json
  import opened Records
  import opened Evidence
  import opened Validator
  import opened Builder
  import opened Events
  import opened Agreement
  import opened Publication
  import opened Loader
  import opened LossDetection

  predicate TransportIssue(issue: Option<Code>) {
    issue == None || issue == Some(MalformedCapture) || issue == Some(CaptureIoError)
  }

  // Whatever arrives: the published evidence is valid exactly under the condition on the retained records.
  lemma ReceivedIsPublishableExactly(source: Source, issue: Option<Code>, guard: Guard, process: ProcessState)
    requires TransportIssue(issue) && TextualGuard(guard)
    ensures var c := Received(source, issue);
            Valid(Build(c, guard, process)) <==> Textual(c) && (Sound(c) ==> !AlienOuter(c))
  {
    hide Build, Valid, Textual, Sound, AlienOuter;
    LoaderReturnsLoaderCaptures(source, issue);
    PublishableExactly(Received(source, issue), guard, process);
  }

  // The observer writes every field as a field object, never as a bare string.
  predicate FieldObjects(records: seq<Record>) {
    forall i :: 0 <= i < |records| ==> !records[i].tool.BareText?
  }

  predicate NoBareTools(t: Intake) {
    forall id :: id in t.starts ==> !t.starts[id].tool.BareText?
  }

  lemma {:induction false} RetainedFromRecords(issues: seq<Code>, records: seq<Record>)
    requires FieldObjects(records)
    ensures NoBareTools(Take(issues, records))
  {
    if records != [] { RetainedFromRecords(issues, records[..|records| - 1]); }
  }

  // With field objects and non-blank texts every received capture, however damaged, is published as valid
  // evidence: accounting again from the public object gives the same overall and boundary statuses.
  lemma FieldObjectsArePublished(source: Source, issue: Option<Code>, guard: Guard, process: ProcessState)
    requires TransportIssue(issue) && TextualGuard(guard)
    requires FieldObjects(Received(source, issue).records) && Textual(Received(source, issue))
    ensures var c := Received(source, issue); var e := Build(c, guard, process);
            && Valid(e)
            && SameStatuses(BuilderAccount(c, guard, process), Reaccounted(e))
  {
    hide Build, Valid, Textual, Sound, BuilderAccount, Reaccounted;
    var c := Received(source, issue);
    RetainedFromRecords(c.issues, c.records);
    assert !AlienOuter(c);
    ReceivedIsPublishableExactly(source, issue, guard, process);
    LoaderReturnsLoaderCaptures(source, issue);
    SecondAccountAgrees(c, guard, process);
  }

  // ---------- without field objects ----------

  const NO_FIELD := Misshapen(Null)

  function BareStart(kind: RecordKind, id: string, sequence: nat, parent: Option<string>, boundary: Label): Record {
    Record(kind, Some(id), sequence, BareText("bash"), NO_FIELD, NO_FIELD, NO_FIELD, NO_FIELD,
           parent, NO_FIELD, NO_FIELD, OtherOutcome, NO_FIELD, NO_FIELD, boundary)
  }

  // An outer call and one Code Mode call, both open, with the tool written as the bare string "bash".
  function BareCapture(): Capture {
    Capture(true, true,
            [BareStart(NativeStart, "o", 1, None, ExecuteBefore),
             BareStart(CodeStart, "c", 2, Some("o"), DecodedCode)],
            Some(0), Some(0), [])
  }

  lemma BareIntake()
    ensures var c := BareCapture(); var t := Take(c.issues, c.records);
            && !t.invalid && t.terminals == map[] && t.starts.Keys == {"o", "c"}
            && t.starts["o"] == c.records[0] && t.starts["c"] == c.records[1]
  {}

  // A loader capture with non-blank texts that the builder itself accepts as sound and then cannot publish:
  // the builder does not read a bare string as the outer tool, the validator does.
  lemma BareToolIsRejected(guard: Guard, process: ProcessState)
    requires TextualGuard(guard)
    ensures var c := BareCapture();
            && LoaderCapture(c) && Textual(c) && Sound(c)
            && Build(c, guard, process).status != Invalid
            && !Valid(Build(c, guard, process))
  {
    hide Build, Valid, Take;
    var c := BareCapture();
    var t := Take(c.issues, c.records);
    BareIntake();
    assert "o"[0] == 'o' && "c"[0] == 'c' && "bash"[0] == 'b';
    assert NonBlank("o") && NonBlank("c");
    assert Textual(c) by {
      assert TextualStart("o", t) && TextualStart("c", t);
    }
    assert Sound(c) by {
      assert SoundStart("o", t);
      assert ParentObserved(t.starts["c"], t.starts);
      assert SoundStart("c", t);
    }
    assert AlienOuter(c) by {
      assert |"bash"| == 4 && |"execute"| == 7;
      assert AlienTool(t.starts[t.starts["c"].parentInvocation.value].tool);
    }
    PublishableExactly(c, guard, process);
    InvalidIffUnsound(c, guard, process);
  }
}
