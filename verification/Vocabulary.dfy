// The names shared by the observer, the loader, the accounting, the builder and the validator.

module Wrappers {
  datatype Option<+T> = None | Some(value: T)

  datatype Result<+T, +E> = Success(value: T) | Failure(error: E)
}

module Sequences {
  // Python's `list(dict.fromkeys(xs))`: the first occurrence of each element, in order.
  function Dedupe<T(==, !new)>(xs: seq<T>): (r: seq<T>)
    ensures NoDuplicates(r)
    ensures forall x :: x in r <==> x in xs
  {
    if xs == [] then []
    else
      var front := Dedupe(xs[..|xs| - 1]);
      AddNewMembers(front, xs[|xs| - 1]);
      assert xs == xs[..|xs| - 1] + [xs[|xs| - 1]];
      AddNew(front, xs[|xs| - 1])
  }

  lemma DedupeEmpty<T(!new)>(xs: seq<T>)
    ensures Dedupe(xs) == [] <==> xs == []
  {}

  // `if x not in target: target.append(x)`
  function AddNew<T(==)>(target: seq<T>, x: T): seq<T> {
    if x in target then target else target + [x]
  }

  lemma AddNewMembers<T(!new)>(target: seq<T>, x: T)
    ensures forall y :: y in AddNew(target, x) <==> y in target || y == x
    ensures NoDuplicates(target) ==> NoDuplicates(AddNew(target, x))
  {}

  predicate NoDuplicates<T(==)>(xs: seq<T>) {
    forall i, j :: 0 <= i < j < |xs| ==> xs[i] != xs[j]
  }

  predicate OccursAt(v: string, text: string, i: nat) {
    i + |v| <= |text| && text[i..i + |v|] == v
  }

  // `v in text`
  predicate Contains(text: string, v: string) {
    exists i :: 0 <= i <= |text| && OccursAt(v, text, i)
  }

  // What stands before the first separator, and after it, is determined by the whole.
  lemma SameAroundSeparator<T>(separator: T, a: seq<T>, b: seq<T>, x: seq<T>, y: seq<T>)
    requires separator !in a && separator !in b && a + [separator] + x == b + [separator] + y
    ensures a == b && x == y
  {
    var l, r := a + [separator] + x, b + [separator] + y;
    assert forall i :: 0 <= i < |a| ==> a[i] != separator && l[i] == a[i];
    assert forall i :: 0 <= i < |b| ==> b[i] != separator && r[i] == b[i];
    assert l[|a|] == separator && r[|b|] == separator;
    assert |a| == |b|;
    assert a == l[..|a|] && b == r[..|b|];
    assert x == l[|a| + 1..] && y == r[|b| + 1..];
  }

  lemma SnocPrefix<T>(xs: seq<T>, i: nat)
    requires i < |xs|
    ensures xs[..i + 1] == xs[..i] + [xs[i]]
    ensures xs[..i + 1][..i] == xs[..i] && xs[..i + 1][i] == xs[i]
  {}
}

module Vocabulary {
  // Evidence and boundary statuses (container/runtime_evidence.py:9).
  datatype Status = Complete | Unsupported | Incomplete | Invalid

  function Priority(s: Status): nat {
    match s
    case Complete => 0
    case Unsupported => 1
    case Incomplete => 2
    case Invalid => 3
  }

  // The worse of two statuses in the order of `_set_boundary_status`.
  function Worse(a: Status, b: Status): Status {
    if Priority(b) > Priority(a) then b else a
  }

  // Field states (container/runtime_evidence.py:10).
  datatype FieldState = Available | Redacted | Omitted | NotSupported

  // Process states (container/runtime_evidence.py:13); NoTransport is the literal "unsupported".
  datatype ProcessState = Completed | TimedOut | Interrupted | NoTransport

  // Every issue, loss and limitation code the pipeline itself writes; OtherCode is any other text.
  datatype Code =
    // capture issues, reported by the loader and the transport
    | MalformedCapture | WrongSchema | AmbiguousOrder | InvalidCaptureStart | RecordsAfterCaptureEnd
    | InvalidCaptureEnd | InvalidRecord | MissingCaptureEnd | CountMismatch | UnterminatedCapture
    | MissingCapture | EmptyCapture | CaptureIoError
    // accounting issues
    | InvalidAccountingInput | MalformedObservation | DuplicateSequence | DuplicateInvocation
    | AmbiguousInvocation | ObservationNotClosed | ObserverFailure | CallbackFailure | ObservationLoss
    | RuntimeTimeout | ProcessInterrupted | MissingTerminal | RequiredFieldOmitted
    | RequiredFieldUnsupported | UnsupportedBoundary | UndeclaredBoundary
    // boundary-only issues
    | TerminalWithoutStart | AmbiguousTerminal | GlobalInvalidCapture | GlobalIncompleteCapture
    // the fixed Code Mode limitation
    | CodeModeFinality
    | OtherCode(text: string)

  const NATIVE := "native"
  const CODE_EXECUTION := "code_mode_execution"
  const CODE_FINALITY := "code_mode_finality"

  lemma BoundaryNamesDiffer()
    ensures NATIVE != CODE_EXECUTION && NATIVE != CODE_FINALITY && CODE_EXECUTION != CODE_FINALITY
  {}
}
