// `account_runtime_evidence` (container/runtime_evidence.py:204-445): the ledger a stream of starts and
// terminals leaves behind, as a left fold.

module Accounting {
  import opened Wrappers
  import opened Sequences
  import opened Vocabulary

  datatype Kind = Start | Terminal

  // One element of the observation stream as the accounting receives it. None stands for a value of the
  // wrong type or outside the vocabulary; `fields` is the required_fields mapping in insertion order.
  datatype Item =
    | NotAMapping
    | Event(
        kind: Option<Kind>,
        sequence: Option<int>,
        id: Option<string>,
        boundary: Option<string>,
        fields: Option<seq<(Option<string>, Option<FieldState>)>>)

  // A well-formed event.
  datatype Entry = Entry(kind: Kind, sequence: nat, id: string, boundary: string, states: seq<FieldState>)

  // The marker `{}` that stands for an observation that cannot be accounted for.
  const MARKER := Event(None, None, None, None, None)

  predicate ValidName(name: Option<string>) {
    name.Some? && 0 < |name.value| <= 256
  }

  predicate ValidFields(fields: seq<(Option<string>, Option<FieldState>)>) {
    forall i :: 0 <= i < |fields| ==> ValidName(fields[i].0) && fields[i].1.Some?
  }

  function States(fields: seq<(Option<string>, Option<FieldState>)>): seq<FieldState>
    requires ValidFields(fields)
  {
    seq(|fields|, i requires 0 <= i < |fields| => fields[i].1.value)
  }

  function Decode(item: Item): Option<Entry> {
    if item.NotAMapping? || item.kind.None? || item.sequence.None? || item.sequence.value < 0
       || !ValidName(item.id) || !ValidName(item.boundary)
       || item.fields.None? || !ValidFields(item.fields.value)
    then None
    else Some(Entry(item.kind.value, item.sequence.value, item.id.value, item.boundary.value,
                    States(item.fields.value)))
  }

  datatype Boundary = Boundary(
    status: Status, starts: nat, terminals: nat, missing: nat,
    omitted: nat, unsupportedFields: nat, issues: seq<Code>)

  datatype Call = Call(boundary: string, start: nat, terminal: Option<nat>)

  datatype Totals = Totals(
    starts: nat, terminals: nat, missing: nat, malformed: nat, duplicateInvocations: nat,
    ambiguous: nat, duplicateSequences: nat, omitted: nat, unsupportedFields: nat)

  // `order` lists the keys of `calls` as the dictionary iterates over them: by insertion.
  datatype Ledger = Ledger(
    totals: Totals, boundaries: map<string, Boundary>, calls: map<string, Call>, order: seq<string>,
    seen: set<int>, issues: seq<Code>)

  datatype Declared = Declared(supported: set<string>, unsupported: set<string>)

  // The arguments that describe the capture as a whole.
  datatype Environment = Environment(
    closed: bool, observerFailures: int, callbackFailures: int, losses: int, process: Option<ProcessState>)

  datatype Account = Account(
    status: Status, issues: seq<Code>, totals: Totals, boundaries: map<string, Boundary>)
  {
    predicate Eligible() { status.Complete? }
  }

  const NO_TOTALS := Totals(0, 0, 0, 0, 0, 0, 0, 0, 0)
  const NEW_BOUNDARY := Boundary(Complete, 0, 0, 0, 0, 0, [])

  // `_set_boundary_status`
  function Mark(b: Boundary, s: Status, code: Code): Boundary {
    b.(status := Worse(b.status, s), issues := AddNew(b.issues, code))
  }

  function Opening(declared: Declared): map<string, Boundary> {
    map n | n in declared.supported + declared.unsupported ::
      if n in declared.unsupported then Boundary(Unsupported, 0, 0, 0, 0, 0, [UnsupportedBoundary])
      else NEW_BOUNDARY
  }

  function Begin(declared: Declared): Ledger {
    Ledger(NO_TOTALS, Opening(declared), map[], [], {}, [])
  }

  // The boundary an event is posted to, created and marked on first sight when it was not declared.
  function Reach(boundaries: map<string, Boundary>, name: string, declared: Declared): Boundary {
    var b := if name in boundaries then boundaries[name] else NEW_BOUNDARY;
    if name in declared.supported || name in declared.unsupported then b
    else Mark(b, Unsupported, UndeclaredBoundary)
  }

  function CountOf(states: seq<FieldState>, s: FieldState): nat {
    if states == [] then 0
    else CountOf(states[..|states| - 1], s) + if states[|states| - 1] == s then 1 else 0
  }

  function ChargeOne(b: Boundary, s: FieldState): Boundary {
    match s
    case Omitted => Mark(b.(omitted := b.omitted + 1), Incomplete, RequiredFieldOmitted)
    case NotSupported =>
      Mark(b.(unsupportedFields := b.unsupportedFields + 1), Unsupported, RequiredFieldUnsupported)
    case _ => b
  }

  function Charge(b: Boundary, states: seq<FieldState>): Boundary {
    if states == [] then b
    else ChargeOne(Charge(b, states[..|states| - 1]), states[|states| - 1])
  }

  // A well-formed event reaches the ledger.
  function Post(l: Ledger, e: Entry, declared: Declared): Ledger {
    var b := Reach(l.boundaries, e.boundary, declared);
    if e.sequence in l.seen then PostDuplicate(l, e, b) else PostNew(l, e, b)
  }

  function PostDuplicate(l: Ledger, e: Entry, b: Boundary): Ledger {
    l.(boundaries := l.boundaries[e.boundary := Mark(b, Invalid, DuplicateSequence)],
       totals := l.totals.(duplicateSequences := l.totals.duplicateSequences + 1),
       issues := AddNew(l.issues, DuplicateSequence))
  }

  function PostNew(l: Ledger, e: Entry, b: Boundary): Ledger {
    var charged := Charge(b, e.states);
    var noted := l.(
      boundaries := l.boundaries[e.boundary := charged],
      seen := l.seen + {e.sequence},
      totals := l.totals.(
        omitted := l.totals.omitted + CountOf(e.states, Omitted),
        unsupportedFields := l.totals.unsupportedFields + CountOf(e.states, NotSupported)));
    if e.kind.Start? then PostStart(noted, e, charged) else PostTerminal(noted, e, charged)
  }

  function PostStart(l: Ledger, e: Entry, b: Boundary): Ledger {
    if e.id in l.calls then
      l.(boundaries := l.boundaries[e.boundary := Mark(b, Invalid, DuplicateInvocation)],
         totals := l.totals.(duplicateInvocations := l.totals.duplicateInvocations + 1),
         issues := AddNew(l.issues, DuplicateInvocation))
    else
      l.(boundaries := l.boundaries[e.boundary := b.(starts := b.starts + 1)],
         calls := l.calls[e.id := Call(e.boundary, e.sequence, None)],
         order := l.order + [e.id],
         totals := l.totals.(starts := l.totals.starts + 1))
  }

  function PostTerminal(l: Ledger, e: Entry, b: Boundary): Ledger {
    if e.id !in l.calls then
      l.(boundaries := l.boundaries[e.boundary := Mark(b, Invalid, TerminalWithoutStart)],
         totals := l.totals.(ambiguous := l.totals.ambiguous + 1),
         issues := AddNew(l.issues, AmbiguousInvocation))
    else
      var call := l.calls[e.id];
      if call.boundary != e.boundary || call.terminal.Some? || e.sequence <= call.start then
        var marked := l.boundaries[e.boundary := Mark(b, Invalid, AmbiguousTerminal)];
        var atStart := if call.boundary in marked then marked[call.boundary] else NEW_BOUNDARY;
        l.(boundaries := marked[call.boundary := Mark(atStart, Invalid, AmbiguousTerminal)],
           totals := l.totals.(ambiguous := l.totals.ambiguous + 1),
           issues := AddNew(l.issues, AmbiguousInvocation))
      else
        l.(boundaries := l.boundaries[e.boundary := b.(terminals := b.terminals + 1)],
           calls := l.calls[e.id := call.(terminal := Some(e.sequence))],
           totals := l.totals.(terminals := l.totals.terminals + 1))
  }

  function Step(l: Ledger, item: Item, declared: Declared): Ledger {
    match Decode(item)
    case None =>
      l.(totals := l.totals.(malformed := l.totals.malformed + 1),
         issues := AddNew(l.issues, MalformedObservation))
    case Some(e) => Post(l, e, declared)
  }

  function Run(stream: seq<Item>, declared: Declared): Ledger {
    if stream == [] then Begin(declared)
    else Step(Run(stream[..|stream| - 1], declared), stream[|stream| - 1], declared)
  }

  // One call is settled: an open one is charged to the boundary of its start.
  function SettleOne(l: Ledger, id: string): Ledger {
    if id !in l.calls || l.calls[id].terminal.Some? then l
    else
      var n := l.calls[id].boundary;
      var b := if n in l.boundaries then l.boundaries[n] else NEW_BOUNDARY;
      l.(totals := l.totals.(missing := l.totals.missing + 1),
         boundaries := l.boundaries[n := Mark(b.(missing := b.missing + 1), Incomplete, MissingTerminal)])
  }

  function Settle(l: Ledger, ids: seq<string>): Ledger {
    if ids == [] then l else SettleOne(Settle(l, ids[..|ids| - 1]), ids[|ids| - 1])
  }

  function AddWhen(issues: seq<Code>, condition: bool, code: Code): seq<Code> {
    if condition then AddNew(issues, code) else issues
  }

  function EnvironmentIssues(issues: seq<Code>, env: Environment): seq<Code> {
    var i1 := AddWhen(issues, !env.closed, ObservationNotClosed);
    var i2 := AddWhen(i1, env.observerFailures != 0, ObserverFailure);
    var i3 := AddWhen(i2, env.callbackFailures != 0, CallbackFailure);
    var i4 := AddWhen(i3, env.losses != 0, ObservationLoss);
    var i5 := AddWhen(i4, env.process == Some(TimedOut), RuntimeTimeout);
    AddWhen(i5, env.process == Some(Interrupted), ProcessInterrupted)
  }

  function LedgerIssues(issues: seq<Code>, l: Ledger, declared: Declared): seq<Code> {
    var i1 := AddWhen(issues, l.totals.missing != 0, MissingTerminal);
    var i2 := AddWhen(i1, l.totals.omitted != 0, RequiredFieldOmitted);
    var i3 := AddWhen(i2, l.totals.unsupportedFields != 0, RequiredFieldUnsupported);
    var i4 := AddWhen(i3, declared.unsupported != {}, UnsupportedBoundary);
    AddWhen(i4, l.boundaries.Keys - declared.supported - declared.unsupported != {}, UndeclaredBoundary)
  }

  // _GLOBAL_INVALID and _GLOBAL_INCOMPLETE
  predicate GloballyInvalid(c: Code) {
    c.InvalidAccountingInput? || c.MalformedObservation? || c.DuplicateSequence?
    || c.DuplicateInvocation? || c.AmbiguousInvocation?
  }

  predicate GloballyIncomplete(c: Code) {
    c.ObservationNotClosed? || c.ObserverFailure? || c.CallbackFailure? || c.ObservationLoss?
    || c.RuntimeTimeout? || c.ProcessInterrupted?
  }

  predicate SomeInvalid(issues: seq<Code>) {
    exists c :: c in issues && GloballyInvalid(c)
  }

  predicate SomeIncomplete(issues: seq<Code>) {
    exists c :: c in issues && GloballyIncomplete(c)
  }

  // What a global issue does to one boundary.
  function Seal(b: Boundary, invalid: bool, incomplete: bool): Boundary {
    if invalid then Mark(b, Invalid, GlobalInvalidCapture)
    else if incomplete then Mark(b, Incomplete, GlobalIncompleteCapture)
    else b
  }

  predicate SomeBoundary(boundaries: map<string, Boundary>, s: Status) {
    exists n :: n in boundaries && boundaries[n].status == s
  }

  function Overall(boundaries: map<string, Boundary>, invalid: bool, incomplete: bool): Status {
    if invalid || SomeBoundary(boundaries, Invalid) then Invalid
    else if incomplete || SomeBoundary(boundaries, Incomplete) then Incomplete
    else if SomeBoundary(boundaries, Complete) then Complete
    else Unsupported
  }

  function Conclude(settled: Ledger, declared: Declared, env: Environment): Account {
    var issues := LedgerIssues(EnvironmentIssues(settled.issues, env), settled, declared);
    var invalid := SomeInvalid(issues);
    var incomplete := SomeIncomplete(issues);
    var sealed := map n | n in settled.boundaries :: Seal(settled.boundaries[n], invalid, incomplete);
    Account(Overall(sealed, invalid, incomplete), issues, settled.totals, sealed)
  }

  function Finish(l: Ledger, declared: Declared, env: Environment): Account {
    Conclude(Settle(l, l.order), declared, env)
  }

  predicate ValidEnvironment(env: Environment) {
    env.observerFailures >= 0 && env.callbackFailures >= 0 && env.losses >= 0 && env.process.Some?
  }

  predicate ValidDeclaration(supported: seq<Option<string>>, unsupported: seq<Option<string>>) {
    && (forall i :: 0 <= i < |supported| ==> ValidName(supported[i]))
    && (forall i :: 0 <= i < |unsupported| ==> ValidName(unsupported[i]))
    && (forall i, j :: 0 <= i < |supported| && 0 <= j < |unsupported| ==> supported[i] != unsupported[j])
  }

  function Names(raw: seq<Option<string>>): set<string> {
    set i | 0 <= i < |raw| && raw[i].Some? :: raw[i].value
  }

  const REJECTED := Account(Invalid, [InvalidAccountingInput], NO_TOTALS, map[])

  function AccountFor(stream: seq<Item>, supported: seq<Option<string>>, unsupported: seq<Option<string>>,
                      env: Environment): Account
  {
    if !ValidEnvironment(env) || !ValidDeclaration(supported, unsupported) then REJECTED
    else
      var declared := Declared(Names(supported), Names(unsupported));
      Finish(Run(stream, declared), declared, env)
  }
}
