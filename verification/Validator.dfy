// `validate_runtime_evidence` (container/runtime_evidence.py:888-1066): what the validator accepts, on the
// public object alone, and the loop that decides it.

module Validator {
  import opened Wrappers
  import opened Sequences
  import opened Vocabulary
  import opened Json
  import opened Evidence
  import opened Accounting

  predicate ValidField(f: Field) {
    f.Withheld? ==> f.state != Available && NonBlank(f.reason)
  }

  predicate ValidCount(c: CountField) {
    match c
    case Count(n) => n >= 0
    case NoCount(state, reason) => (state.Omitted? || state.NotSupported?) && NonBlank(reason)
  }

  predicate ValidCodes(codes: seq<Code>) {
    (forall i :: 0 <= i < |codes| ==> NonBlankCode(codes[i])) && NoDuplicates(codes)
  }

  predicate ValidBoundary(b: PublicBoundary) {
    && b.eligible == b.status.Complete?
    && ValidCount(b.starts) && ValidCount(b.terminals) && ValidCount(b.missing)
    && ValidCodes(b.issues)
  }

  predicate ValidHeader(e: RuntimeEvidence) {
    var c := e.coverage;
    && e.eligible == e.status.Complete?
    && (c.closed.ClosedWithheld? ==> c.closed.state != Available && NonBlank(c.closed.reason))
    && ValidCount(c.starts) && ValidCount(c.terminals) && ValidCount(c.missing)
    && ValidCount(c.observerFailures) && ValidCount(c.callbackFailures)
    && ValidCodes(c.losses) && ValidCodes(c.unsupported)
    && c.boundaries.Keys == {NATIVE, CODE_EXECUTION, CODE_FINALITY}
    && forall n :: n in c.boundaries ==> ValidBoundary(c.boundaries[n])
  }

  function CountState(c: CountField): FieldState {
    if c.Count? then Available else c.state
  }

  // A transport that cannot observe carries nothing but its reason.
  predicate ValidWithoutTransport(e: RuntimeEvidence) {
    var c := e.coverage;
    && e.status.Unsupported? && e.observations == []
    && c.closed.ClosedWithheld? && c.closed.state == NotSupported
    && CountState(c.starts) == NotSupported && CountState(c.terminals) == NotSupported
    && CountState(c.missing) == NotSupported
    && CountState(c.observerFailures) == NotSupported && CountState(c.callbackFailures) == NotSupported
    && c.unsupported != []
  }

  predicate ValidTotals(e: RuntimeEvidence) {
    var c := e.coverage;
    && c.closed.ClosedIs?
    && if c.starts.Count? && c.terminals.Count? && c.missing.Count? then
         c.starts.n >= c.terminals.n && c.missing.n == c.starts.n - c.terminals.n
       else
         && CountState(c.starts) == Omitted && CountState(c.terminals) == Omitted
         && CountState(c.missing) == Omitted
         && (e.status.Incomplete? || e.status.Invalid?) && c.losses != []
  }

  // ---------- observations ----------

  predicate ValidParent(p: ParentField) {
    match p
    case NoParent => true
    case ParentIs(_, id) => NonBlank(id)
    case ParentWithheld(state, reason) => state != Available && NonBlank(reason)
  }

  function FieldStateOf(f: Field): FieldState {
    if f.Value? then Available else f.state
  }

  function ParentState(p: ParentField): FieldState {
    if p.ParentWithheld? then p.state else Available
  }

  predicate ValidSequenceField(s: SequenceField) {
    s.NoSequence? ==> s.state != Available && NonBlank(s.reason)
  }

  // Everything the validator asks of one observation by itself.
  predicate ValidShape(o: Observation) {
    && NonBlank(o.id)
    && ValidField(o.tool) && ValidField(o.actor) && ValidField(o.sessionId) && ValidField(o.messageId)
    && ValidField(o.callId) && ValidField(o.input) && ValidParent(o.parent)
    && o.start >= 0
    && ValidField(o.result) && ValidField(o.error) && ValidSequenceField(o.terminal)
    && match o.outcome
       case Missing =>
         o.terminal.NoSequence? && o.terminal.state == Omitted
         && FieldStateOf(o.result) == Omitted && FieldStateOf(o.error) == Omitted
       case Success =>
         && o.terminal.At? && o.terminal.sequence > o.start
         && FieldStateOf(o.error) == Omitted
         && (o.mode.CodeMode? ==> FieldStateOf(o.result) == NotSupported)
       case Error =>
         && o.terminal.At? && o.terminal.sequence > o.start
         && FieldStateOf(o.result) == Omitted
         && (o.mode.CodeMode? ==> FieldStateOf(o.error) == NotSupported)
  }

  // o is the outer `execute` call a Code Mode observation names as its parent.
  predicate OuterOf(o: Observation, child: Observation) {
    && o.mode.Native?
    && (o.tool.Value? ==> o.tool.json == Text("execute"))
    && o.actor == child.actor && o.sessionId == child.sessionId
    && o.messageId == child.messageId && o.callId == child.callId
  }

  predicate ParentEstablished(os: seq<Observation>, child: Observation) {
    && child.parent.ParentIs? && child.parent.kind.Invocation?
    && exists k :: 0 <= k < |os| && os[k].id == child.parent.id && OuterOf(os[k], child)
  }

  // o may follow os.
  predicate Follows(os: seq<Observation>, o: Observation, status: Status) {
    && (forall k :: 0 <= k < |os| ==>
          && os[k].id != o.id && os[k].start < o.start
          && (os[k].terminal.At? ==> os[k].terminal.sequence != o.start)
          && (o.terminal.At? ==> os[k].start != o.terminal.sequence)
          && (o.terminal.At? && os[k].terminal.At? ==> os[k].terminal.sequence != o.terminal.sequence))
    && (o.mode.CodeMode? && !status.Invalid? ==> ParentEstablished(os, o))
  }

  predicate ValidObservations(os: seq<Observation>, status: Status) {
    forall j :: 0 <= j < |os| ==> ValidShape(os[j]) && Follows(os[..j], os[j], status)
  }

  function TerminalCount(os: seq<Observation>): nat {
    if os == [] then 0
    else TerminalCount(os[..|os| - 1]) + if os[|os| - 1].outcome.Missing? then 0 else 1
  }

  // ---------- the accounting is derived again ----------

  function Required(name: string, state: FieldState): (Option<string>, Option<FieldState>) {
    (Some(name), Some(state))
  }

  function BoundaryOf(m: Mode): string {
    if m.Native? then NATIVE else CODE_EXECUTION
  }

  function StartItem(o: Observation): Item {
    var identity := [
      Required("tool", FieldStateOf(o.tool)), Required("actor", FieldStateOf(o.actor)),
      Required("session_id", FieldStateOf(o.sessionId)), Required("message_id", FieldStateOf(o.messageId)),
      Required("call_id", FieldStateOf(o.callId)), Required("input", FieldStateOf(o.input))];
    var fields := if o.mode.CodeMode? then identity + [Required("parent", ParentState(o.parent))] else identity;
    Event(Some(Start), Some(o.start), Some(o.id), Some(BoundaryOf(o.mode)), Some(fields))
  }

  function TerminalItem(o: Observation): Item
    requires o.terminal.At?
  {
    var fields :=
      if o.mode.CodeMode? then [Required("outcome", Available)]
      else [Required("outcome", Available),
            Required("result_or_error", FieldStateOf(if o.outcome.Success? then o.result else o.error))];
    Event(Some(Terminal), Some(o.terminal.sequence), Some(o.id), Some(BoundaryOf(o.mode)), Some(fields))
  }

  function Items(o: Observation): seq<Item> {
    [StartItem(o)] + if o.terminal.At? && !o.outcome.Missing? then [TerminalItem(o)] else []
  }

  function Reconstruct(os: seq<Observation>): seq<Item> {
    if os == [] then [] else Reconstruct(os[..|os| - 1]) + Items(os[|os| - 1])
  }

  function LossCount(losses: seq<Code>): nat {
    if losses == [] then 0
    else LossCount(losses[..|losses| - 1]) + if CaptureLoss(losses[|losses| - 1]) then 1 else 0
  }

  predicate SomeInvalidLoss(losses: seq<Code>) {
    exists c :: c in losses && InvalidCapture(c)
  }

  const SUPPORTED: seq<Option<string>> := [Some(NATIVE), Some(CODE_EXECUTION)]
  const UNSUPPORTED: seq<Option<string>> := [Some(CODE_FINALITY)]

  function PublicFailures(c: CountField): int {
    if c.Count? then c.n else 0
  }

  function Reaccounted(e: RuntimeEvidence): Account {
    var c := e.coverage;
    AccountFor(
      Reconstruct(e.observations) + (if SomeInvalidLoss(c.losses) then [MARKER] else []),
      SUPPORTED, UNSUPPORTED,
      Environment(c.closed.ClosedIs? && c.closed.closed, PublicFailures(c.observerFailures),
                  PublicFailures(c.callbackFailures), LossCount(c.losses), Some(c.process)))
  }

  predicate AgreesWithAccounting(e: RuntimeEvidence) {
    var a := Reaccounted(e);
    && e.status == a.status
    && e.eligible == a.Eligible()
    && (forall n :: n in {NATIVE, CODE_EXECUTION} ==>
          n in e.coverage.boundaries && n in a.boundaries
          && e.coverage.boundaries[n].status == a.boundaries[n].status)
  }

  predicate ValidObserved(e: RuntimeEvidence) {
    var c := e.coverage;
    && ValidTotals(e)
    && ValidObservations(e.observations, e.status)
    && (c.starts.Count? && c.terminals.Count? && c.missing.Count? ==>
          c.starts.n == |e.observations| && c.terminals.n == TerminalCount(e.observations))
    && CODE_FINALITY in c.boundaries && c.boundaries[CODE_FINALITY].status.Unsupported?
    && CodeModeFinality in c.unsupported
    && AgreesWithAccounting(e)
  }

  // The object passes the validator.
  predicate Valid(e: RuntimeEvidence) {
    && ValidHeader(e)
    && if e.coverage.process.NoTransport? then ValidWithoutTransport(e) else ValidObserved(e)
  }
}
