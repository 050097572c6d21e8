// `build_runtime_evidence` (container/runtime_evidence.py:491-873): from a loaded capture to the public object.

module Builder {
  import opened Wrappers
  import opened Sequences
  import opened Vocabulary
  import opened Json
  import opened Records
  import opened Evidence
  import opened Accounting
  import opened Validator

  // What the loader and the transport hand over.
  datatype Capture = Capture(
    started: bool, ended: bool, records: seq<Record>,
    observerFailures: Option<int>, callbackFailures: Option<int>, issues: seq<Code>)

  // The sanitizer and the size limit together: what may happen to an available value.
  datatype Ruling = Keep | Redact | Refuse(reason: string)
  type Guard = Json -> Ruling

  // ---------- intake ----------

  // Starts and terminals by invocation id; `order` is the insertion order of `starts`.
  datatype Intake = Intake(
    starts: map<string, Record>, order: seq<string>, terminals: map<string, Record>,
    seen: set<int>, invalid: bool, losses: seq<Code>)

  predicate IsStart(k: RecordKind) { k.NativeStart? || k.CodeStart? }
  predicate IsTerminal(k: RecordKind) { k.NativeTerminal? || k.CodeTerminal? }

  predicate NonEmpty(s: Option<string>) { s.Some? && s.value != "" }

  function TakeIssues(issues: seq<Code>): Intake {
    Intake(map[], [], map[], {}, exists c :: c in issues && InvalidCapture(c), Dedupe(issues))
  }

  function TakeOne(t: Intake, r: Record): Intake {
    if !NonEmpty(r.id) || r.sequence < 0 then t.(invalid := true)
    else if r.sequence in t.seen then t.(invalid := true, losses := AddNew(t.losses, DuplicateSequence))
    else
      var noted := t.(seen := t.seen + {r.sequence});
      if IsStart(r.kind) && r.id.value !in t.starts then
        noted.(starts := t.starts[r.id.value := r], order := t.order + [r.id.value])
      else if IsTerminal(r.kind) && r.id.value !in t.terminals then
        noted.(terminals := t.terminals[r.id.value := r])
      else noted.(invalid := true)
  }

  function Take(issues: seq<Code>, records: seq<Record>): Intake {
    if records == [] then TakeIssues(issues)
    else TakeOne(Take(issues, records[..|records| - 1]), records[|records| - 1])
  }

  // ---------- field projection ----------

  function HidingState(h: Hiding): FieldState {
    if h.HideRedacted? then Redacted else Omitted
  }

  // `_identity`
  function IdentityField(raw: RawField, reason: string): Field {
    match raw
    case Shown(Text(text)) =>
      if text != "" && '\0' !in text then Value(Text(text)) else Withheld(Omitted, reason)
    case Shown(_) => Withheld(Omitted, reason)
    case Hidden(state, given, exact) =>
      if exact && given != "" then Withheld(HidingState(state), given) else Withheld(Omitted, reason)
    case BareText(text) =>
      if text != "" && '\0' !in text then Value(Text(text)) else Withheld(Omitted, reason)
    case Misshapen(_) => Withheld(Omitted, reason)
  }

  // `_project`
  function Project(raw: RawField, guard: Guard): Field {
    match raw
    case Shown(value) =>
      (match guard(value)
       case Keep => Value(value)
       case Redact => Withheld(Redacted, CREDENTIAL_MATCH)
       case Refuse(reason) => Withheld(Omitted, if reason != "" then reason else UNSUPPORTED_REPRESENTATION))
    case Hidden(state, given, _) =>
      if given != "" then Withheld(HidingState(state), given) else Withheld(Omitted, UNSUPPORTED_REPRESENTATION)
    case BareText(_) => Withheld(Omitted, MISSING)
    case Misshapen(content) =>
      Withheld(Omitted, if content.Object? then UNSUPPORTED_REPRESENTATION else MISSING)
  }

  // `_parent`
  function ParentOf(start: Record): ParentField {
    if start.kind.CodeStart? then
      if NonEmpty(start.parentInvocation) then ParentIs(Invocation, start.parentInvocation.value)
      else ParentWithheld(Omitted, PARENT_INVOCATION_UNAVAILABLE)
    else
      match start.parentSession
      case Shown(Null) => NoParent
      case Shown(Text(id)) =>
        if id != "" then ParentIs(Session, id) else ParentWithheld(Omitted, SESSION_PARENT_UNAVAILABLE)
      case Hidden(state, reason, _) => ParentWithheld(HidingState(state), reason)
      case _ => ParentWithheld(Omitted, SESSION_PARENT_UNAVAILABLE)
  }

  // ---------- correlation ----------

  // `_available_string`
  function ShownText(raw: RawField): Option<string> {
    if raw.Shown? && raw.value.Text? && raw.value.text != "" then Some(raw.value.text) else None
  }

  // `_code_parent_is_observed`
  predicate ParentObserved(start: Record, starts: map<string, Record>) {
    && NonEmpty(start.parentInvocation) && start.parentInvocation.value in starts
    && var outer := starts[start.parentInvocation.value];
       && outer.kind.NativeStart? && outer.boundary.ExecuteBefore?
       && outer.sequence < start.sequence
       && (ShownText(outer.tool).Some? ==> ShownText(outer.tool).value == "execute")
       && SameIdentity(outer, start)
  }

  function ExpectedLabel(start: Record, outcome: RawOutcome): Label {
    match outcome
    case Succeeded => if start.kind.NativeStart? then SessionSuccess else HandlerReturn
    case Failed => if start.kind.NativeStart? then SessionFailed else HandlerThrow
    case OtherOutcome => Absent
  }

  // The terminal is dropped before its start is accounted: wrong kind, identity or boundary.
  predicate EarlyFault(start: Record, t: Record) {
    || t.kind != (if start.kind.NativeStart? then NativeTerminal else CodeTerminal)
    || t.tool != start.tool || !SameIdentity(t, start)
    || t.boundary != ExpectedLabel(start, t.outcome)
  }

  // The terminal is dropped after its start is accounted: it does not follow it, or has no outcome.
  predicate LateFault(start: Record, t: Record) {
    t.sequence <= start.sequence || t.outcome.OtherOutcome?
  }

  function Lookup(m: map<string, Record>, id: string): Option<Record> {
    if id in m then Some(m[id]) else None
  }

  predicate Paired(start: Record, t: Option<Record>) {
    t.Some? && !EarlyFault(start, t.value) && !LateFault(start, t.value)
  }

  function Observe(id: string, start: Record, t: Option<Record>, guard: Guard): Observation {
    var mode := if start.kind.NativeStart? then Native else CodeMode;
    var paired := Paired(start, t);
    var nothing := Withheld(Omitted, TERMINAL_MISSING);
    var inapplicable := Withheld(Omitted, NOT_APPLICABLE);
    var final := Withheld(NotSupported, FINALITY_REASON);
    var success := paired && t.value.outcome.Succeeded?;
    Observation(
      id,
      IdentityField(start.tool, TOOL_UNAVAILABLE), mode,
      IdentityField(start.agent, ACTOR_UNAVAILABLE), IdentityField(start.sessionId, SESSION_UNAVAILABLE),
      IdentityField(start.messageId, MESSAGE_UNAVAILABLE), IdentityField(start.callId, CALL_UNAVAILABLE),
      ParentOf(start), Project(start.input, guard),
      if !paired then Missing else if success then Outcome.Success else Error,
      if !paired then nothing
      else if !success then inapplicable
      else if mode.CodeMode? then final else Project(t.value.result, guard),
      if !paired then nothing
      else if success then inapplicable
      else if mode.CodeMode? then final else Project(t.value.error, guard),
      start.sequence,
      if paired then At(t.value.sequence) else NoSequence(Omitted, TERMINAL_MISSING))
  }

  function MarkWhen(condition: bool): seq<Item> {
    if condition then [MARKER] else []
  }

  // The accounting events of one start, in the order the loop appends them.
  function EventsOf(id: string, t: Intake, guard: Guard): seq<Item>
    requires id in t.starts
  {
    var start, terminal := t.starts[id], Lookup(t.terminals, id);
    var o := Observe(id, start, terminal, guard);
    MarkWhen(start.kind.CodeStart? && !ParentObserved(start, t.starts))
    + MarkWhen(terminal.Some? && EarlyFault(start, terminal.value))
    + Items(o)
    + MarkWhen(terminal.Some? && !EarlyFault(start, terminal.value) && LateFault(start, terminal.value))
  }

  // ---------- order ----------

  // `sorted(..., key=sequence)`: a stable insertion by start sequence.
  function Insert(id: string, ids: seq<string>, starts: map<string, Record>): seq<string>
    requires id in starts && forall x :: x in ids ==> x in starts
  {
    if ids == [] then [id]
    else if starts[ids[|ids| - 1]].sequence <= starts[id].sequence then ids + [id]
    else Insert(id, ids[..|ids| - 1], starts) + [ids[|ids| - 1]]
  }

  function Sorted(ids: seq<string>, starts: map<string, Record>): (r: seq<string>)
    requires forall x :: x in ids ==> x in starts
    ensures forall x :: x in r <==> x in ids
  {
    if ids == [] then []
    else
      var front := ids[..|ids| - 1];
      assert ids == front + [ids[|ids| - 1]];
      InsertMembers(ids[|ids| - 1], Sorted(front, starts), starts);
      Insert(ids[|ids| - 1], Sorted(front, starts), starts)
  }

  lemma {:induction false} InsertMembers(id: string, ids: seq<string>, starts: map<string, Record>)
    requires id in starts && forall x :: x in ids ==> x in starts
    ensures forall x :: x in Insert(id, ids, starts) <==> x in ids || x == id
    ensures |Insert(id, ids, starts)| == |ids| + 1
  {
    if ids != [] && starts[ids[|ids| - 1]].sequence > starts[id].sequence {
      var front := ids[..|ids| - 1];
      assert ids == front + [ids[|ids| - 1]];
      InsertMembers(id, front, starts);
    }
  }

  // ---------- assembly ----------

  function ObservationsOf(ids: seq<string>, t: Intake, guard: Guard): seq<Observation>
    requires forall x :: x in ids ==> x in t.starts
  {
    seq(|ids|, i requires 0 <= i < |ids| => Observe(ids[i], t.starts[ids[i]], Lookup(t.terminals, ids[i]), guard))
  }

  function EventsFor(ids: seq<string>, t: Intake, guard: Guard): seq<Item>
    requires forall x :: x in ids ==> x in t.starts
  {
    if ids == [] then []
    else EventsFor(ids[..|ids| - 1], t, guard) + EventsOf(ids[|ids| - 1], t, guard)
  }

  predicate Orphan(t: Intake) {
    exists id :: id in t.terminals && id !in t.starts
  }

  ghost predicate Indexed(t: Intake) {
    forall id :: id in t.order <==> id in t.starts
  }

  lemma {:induction false} TakeIndexed(issues: seq<Code>, records: seq<Record>)
    ensures Indexed(Take(issues, records))
  {
    if records != [] { TakeIndexed(issues, records[..|records| - 1]); }
  }

  function Ids(c: Capture): (ids: seq<string>)
    ensures forall x :: x in ids <==> x in Take(c.issues, c.records).starts
  {
    TakeIndexed(c.issues, c.records);
    var t := Take(c.issues, c.records);
    Sorted(t.order, t.starts)
  }

  function AccountingEvents(c: Capture, guard: Guard): seq<Item> {
    var t := Take(c.issues, c.records);
    MarkWhen(t.invalid) + EventsFor(Ids(c), t, guard) + MarkWhen(Orphan(t))
  }

  function LossCodes(c: Capture): seq<Code> {
    var t := Take(c.issues, c.records);
    if t.invalid then AddNew(t.losses, MalformedObservation) else t.losses
  }

  function IncompleteCount(codes: seq<Code>): nat {
    if codes == [] then 0
    else IncompleteCount(codes[..|codes| - 1]) + if InvalidCapture(codes[|codes| - 1]) then 0 else 1
  }

  // A failure counter as the builder reads it: only from a capture that ended, never negative.
  function Failures(c: Capture, n: Option<int>): Option<int> {
    if c.ended && n.Some? && n.value >= 0 then n else None
  }

  function OrZero(n: Option<int>): int {
    if n.Some? then n.value else 0
  }

  // `process_state` outside the three running states counts as interrupted.
  function Effective(process: ProcessState): ProcessState {
    if process.NoTransport? then Interrupted else process
  }

  function BuilderAccount(c: Capture, guard: Guard, process: ProcessState): Account {
    AccountFor(AccountingEvents(c, guard), SUPPORTED, UNSUPPORTED,
               Environment(c.ended, OrZero(Failures(c, c.observerFailures)),
                           OrZero(Failures(c, c.callbackFailures)),
                           IncompleteCount(LossCodes(c)), Some(Effective(process))))
  }

  function PublicCount(n: Option<int>, reason: string): CountField {
    if n.Some? && n.value >= 0 then Count(n.value) else NoCount(Omitted, reason)
  }

  function PublicBoundaryOf(b: Boundary, started: bool): PublicBoundary {
    PublicBoundary(
      b.status, b.status.Complete?,
      PublicCount(if started then Some(b.starts) else None, MISSING_CAPTURE),
      PublicCount(if started then Some(b.terminals) else None, MISSING_CAPTURE),
      PublicCount(if started then Some(b.missing) else None, MISSING_CAPTURE),
      Dedupe(b.issues))
  }

  function UnsupportedBoundaryFor(reason: string, code: Code): PublicBoundary {
    var none := NoCount(NotSupported, reason);
    PublicBoundary(Unsupported, false, none, none, none, [code])
  }

  // The loss codes of the account that are published: all but the two limitation codes.
  function Published(issues: seq<Code>): seq<Code> {
    if issues == [] then []
    else
      var last := issues[|issues| - 1];
      Published(issues[..|issues| - 1])
      + if last.UnsupportedBoundary? || last.RequiredFieldUnsupported? then [] else [last]
  }

  function PublicLosses(c: Capture, a: Account): seq<Code> {
    Dedupe(LossCodes(c) + Published(a.issues))
  }

  // Adds the issues of an unsupported boundary to the limitations.
  function AddLimits(unsupported: seq<Code>, issues: seq<Code>): seq<Code> {
    if issues == [] then unsupported
    else AddNew(AddLimits(unsupported, issues[..|issues| - 1]), issues[|issues| - 1])
  }

  function Limits(native: PublicBoundary, code: PublicBoundary): seq<Code> {
    var l0 := [CodeModeFinality];
    var l1 := if native.status.Unsupported? then AddLimits(l0, native.issues) else l0;
    if code.status.Unsupported? then AddLimits(l1, code.issues) else l1
  }

  // A boundary the account does not hold is published as invalid; `Built` shows it always holds both.
  const NO_BOUNDARY := Boundary(Invalid, 0, 0, 0, 0, 0, [])

  function BoundaryIn(a: Account, name: string): Boundary {
    if name in a.boundaries then a.boundaries[name] else NO_BOUNDARY
  }

  function Build(c: Capture, guard: Guard, process: ProcessState): RuntimeEvidence {
    var a := BuilderAccount(c, guard, process);
    var os := ObservationsOf(Ids(c), Take(c.issues, c.records), guard);
    var native := PublicBoundaryOf(BoundaryIn(a, NATIVE), c.started);
    var code := PublicBoundaryOf(BoundaryIn(a, CODE_EXECUTION), c.started);
    var terminals := TerminalCount(os);
    RuntimeEvidence(
      a.status, a.status.Complete?, os,
      Coverage(
        ClosedIs(c.ended), Effective(process),
        PublicCount(if c.started then Some(|os|) else None, MISSING_CAPTURE),
        PublicCount(if c.started then Some(terminals) else None, MISSING_CAPTURE),
        PublicCount(if c.started then Some(|os| - terminals) else None, MISSING_CAPTURE),
        PublicCount(Failures(c, c.observerFailures), OBSERVATION_NOT_CLOSED),
        PublicCount(Failures(c, c.callbackFailures), OBSERVATION_NOT_CLOSED),
        PublicLosses(c, a),
        Limits(native, code),
        map[NATIVE := native, CODE_EXECUTION := code,
            CODE_FINALITY := UnsupportedBoundaryFor(FINALITY_REASON, CodeModeFinality)]))
  }
}
