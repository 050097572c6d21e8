// JSON values, the observer's records as the loader keeps them, and the public runtime-evidence object.

module Json {
  // Members of an object are kept in insertion order.
  datatype Json =
    | Null
    | Bool(value: bool)
    | Number(digits: string)
    | Text(text: string)
    | List(items: seq<Json>)
    | Object(members: seq<(string, Json)>)
}

module Records {
  import opened Wrappers
  import opened Json

  datatype RecordKind = NativeStart | NativeTerminal | CodeStart | CodeTerminal | UnknownKind

  datatype Hiding = HideRedacted | HideOmitted

  // One field of a record.
  datatype RawField =
    | Shown(value: Json)                                       // exactly {state: available, value}
    | Hidden(state: Hiding, reason: string, exact: bool)       // state redacted/omitted and a string reason
    | BareText(text: string)                                   // a plain string instead of an object
    | Misshapen(content: Json)                                 // anything else, an absent field included

  datatype RawOutcome = Succeeded | Failed | OtherOutcome

  // The `boundary` labels the observer writes; Absent is a missing label.
  datatype Label =
    | ExecuteBefore | DecodedExecute | DecodedCode
    | SessionSuccess | SessionFailed | HandlerReturn | HandlerThrow
    | Absent | OtherLabel(text: string)

  datatype Record = Record(
    kind: RecordKind, id: Option<string>, sequence: int,
    tool: RawField, agent: RawField, sessionId: RawField, messageId: RawField, callId: RawField,
    parentInvocation: Option<string>, parentSession: RawField, input: RawField,
    outcome: RawOutcome, result: RawField, error: RawField, boundary: Label)

  // Two records name the same runtime identity.
  predicate SameIdentity(a: Record, b: Record) {
    a.sessionId == b.sessionId && a.agent == b.agent && a.messageId == b.messageId && a.callId == b.callId
  }
}

module Evidence {
  import opened Vocabulary
  import opened Json

  datatype Field = Value(json: Json) | Withheld(state: FieldState, reason: string)

  datatype ParentKind = Invocation | Session

  datatype ParentField =
    | NoParent
    | ParentIs(kind: ParentKind, id: string)
    | ParentWithheld(state: FieldState, reason: string)

  datatype CountField = Count(n: int) | NoCount(state: FieldState, reason: string)

  datatype ClosedField = ClosedIs(closed: bool) | ClosedWithheld(state: FieldState, reason: string)

  datatype SequenceField = At(sequence: int) | NoSequence(state: FieldState, reason: string)

  datatype Mode = Native | CodeMode

  datatype Outcome = Success | Error | Missing

  datatype Observation = Observation(
    id: string, tool: Field, mode: Mode, actor: Field, sessionId: Field, messageId: Field, callId: Field,
    parent: ParentField, input: Field, outcome: Outcome, result: Field, error: Field,
    start: int, terminal: SequenceField)

  datatype PublicBoundary = PublicBoundary(
    status: Status, eligible: bool, starts: CountField, terminals: CountField, missing: CountField,
    issues: seq<Code>)

  datatype Coverage = Coverage(
    closed: ClosedField, process: ProcessState,
    starts: CountField, terminals: CountField, missing: CountField,
    observerFailures: CountField, callbackFailures: CountField,
    losses: seq<Code>, unsupported: seq<Code>, boundaries: map<string, PublicBoundary>)

  datatype RuntimeEvidence = RuntimeEvidence(
    status: Status, eligible: bool, observations: seq<Observation>, coverage: Coverage)

  // ---------- non-empty text ----------

  // Characters `str.strip` removes.
  predicate IsSpace(c: char) {
    var n := c as int;
    || 9 <= n <= 13 || 28 <= n <= 32 || n == 0x85 || n == 0xA0 || n == 0x1680 || 0x2000 <= n <= 0x200A
    || n == 0x2028 || n == 0x2029 || n == 0x202F || n == 0x205F || n == 0x3000
  }

  predicate NonBlank(s: string) {
    exists i :: 0 <= i < |s| && !IsSpace(s[i])
  }

  predicate NonBlankCode(c: Code) {
    c.OtherCode? ==> NonBlank(c.text)
  }

  // ---------- the capture-issue vocabulary ----------

  // `_capture_issue_kind(code) == "invalid"`
  predicate InvalidCapture(c: Code) {
    c.MalformedCapture? || c.MalformedObservation? || c.DuplicateSequence? || c.WrongSchema?
    || c.AmbiguousOrder? || c.RecordsAfterCaptureEnd? || c.InvalidCaptureStart? || c.InvalidCaptureEnd?
    || c.InvalidRecord? || c.CountMismatch? || c.UnterminatedCapture?
  }

  // The codes the validator counts as losses.
  predicate CaptureLoss(c: Code) {
    c.MissingCapture? || c.EmptyCapture? || c.UnterminatedCapture? || c.MissingCaptureEnd?
    || c.CaptureIoError?
  }

  // The reasons the builder itself writes.
  const MISSING := "missing"
  const UNSUPPORTED_REPRESENTATION := "unsupported_representation"
  const CREDENTIAL_MATCH := "credential_match"
  const SESSION_PARENT_UNAVAILABLE := "session_parent_unavailable"
  const PARENT_INVOCATION_UNAVAILABLE := "parent_invocation_unavailable"
  const TERMINAL_MISSING := "terminal_missing"
  const NOT_APPLICABLE := "not_applicable"
  const FINALITY_REASON := "stock_codemode_final_boundary_not_exposed"
  const MISSING_CAPTURE := "missing_capture"
  const OBSERVATION_NOT_CLOSED := "observation_not_closed"
  const TOOL_UNAVAILABLE := "tool_unavailable"
  const ACTOR_UNAVAILABLE := "actor_unavailable"
  const SESSION_UNAVAILABLE := "session_unavailable"
  const MESSAGE_UNAVAILABLE := "message_unavailable"
  const CALL_UNAVAILABLE := "call_unavailable"

  lemma OwnReasonsAreText()
    ensures NonBlank(MISSING) && NonBlank(UNSUPPORTED_REPRESENTATION) && NonBlank(CREDENTIAL_MATCH)
    ensures NonBlank(SESSION_PARENT_UNAVAILABLE) && NonBlank(PARENT_INVOCATION_UNAVAILABLE)
    ensures NonBlank(TERMINAL_MISSING) && NonBlank(NOT_APPLICABLE) && NonBlank(FINALITY_REASON)
    ensures NonBlank(MISSING_CAPTURE) && NonBlank(OBSERVATION_NOT_CLOSED) && NonBlank(TOOL_UNAVAILABLE)
    ensures NonBlank(ACTOR_UNAVAILABLE) && NonBlank(SESSION_UNAVAILABLE)
    ensures NonBlank(MESSAGE_UNAVAILABLE) && NonBlank(CALL_UNAVAILABLE)
  {
    assert MISSING[0] == 'm' && UNSUPPORTED_REPRESENTATION[0] == 'u' && CREDENTIAL_MATCH[0] == 'c';
    assert SESSION_PARENT_UNAVAILABLE[0] == 's' && PARENT_INVOCATION_UNAVAILABLE[0] == 'p';
    assert TERMINAL_MISSING[0] == 't' && NOT_APPLICABLE[0] == 'n' && FINALITY_REASON[0] == 's';
    assert MISSING_CAPTURE[0] == 'm' && OBSERVATION_NOT_CLOSED[0] == 'o' && TOOL_UNAVAILABLE[0] == 't';
    assert ACTOR_UNAVAILABLE[0] == 'a' && SESSION_UNAVAILABLE[0] == 's' && MESSAGE_UNAVAILABLE[0] == 'm';
    assert CALL_UNAVAILABLE[0] == 'c';
  }
}
