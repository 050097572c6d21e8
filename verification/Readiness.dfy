// Whether validated evidence can carry an assertion: the pipeline's own answer (`assertion_status`,
// container/runtime_evidence.py:1069-1139) and the engine's (runner/eval_evidence.py:70-317).

module Readiness {
  import opened Wrappers
  import opened Sequences
  import opened Vocabulary
  import opened Evidence
  import opened Validator
  import opened ValidatorLoop

  datatype Standing = Ready | NotIncomplete | NotSupportedHere | NotValid

  datatype FieldFault = OutcomeMissing | StartInvalid | NoField | FieldWithheld(state: FieldState, reason: string)

  datatype Reason =
    | EvidenceRejected | ValidationError
    | BadBoundaryName | UnknownBoundary(name: string)
    | CaptureWas(status: Status) | ProcessWas(process: ProcessState) | CaptureLost(code: Code)
    | BoundaryWas(status: Status, name: string) | BoundaryNoted(name: string, code: Code)
    | BadFieldNames
    | FieldLacking(fault: FieldFault, index: nat, name: string)

  datatype Readiness = Readiness(standing: Standing, reasons: seq<Reason>, required: seq<string>)

  // None stands for an entry that is not a string.
  datatype Requirement = Requirement(boundaries: seq<Option<string>>, fields: seq<Option<string>>)

  predicate Named(name: Option<string>) { name.Some? && name.value != "" }

  predicate Known(name: string) { name == NATIVE || name == CODE_EXECUTION || name == CODE_FINALITY }

  // ---------- what one field offers ----------

  datatype Look = Offers(state: FieldState, reason: string) | NotAField

  function LookField(f: Field): Look {
    if f.Value? then Offers(Available, "") else Offers(f.state, f.reason)
  }

  function LookParent(p: ParentField): Look {
    if p.ParentWithheld? then Offers(p.state, p.reason) else Offers(Available, "")
  }

  function LookSequence(s: SequenceField): Look {
    if s.At? then Offers(Available, "") else Offers(s.state, s.reason)
  }

  // The observation's members that are field objects.
  const FIELDS: seq<string> := ["tool", "actor", "session_id", "message_id", "call_id", "parent", "input", "result",
                                "error", "terminal_sequence"]

  // The member called `name`, as far as it is a field object.
  function LookUp(o: Observation, name: string): Look {
    if name == "tool" then LookField(o.tool)
    else if name == "actor" then LookField(o.actor)
    else if name == "session_id" then LookField(o.sessionId)
    else if name == "message_id" then LookField(o.messageId)
    else if name == "call_id" then LookField(o.callId)
    else if name == "parent" then LookParent(o.parent)
    else if name == "input" then LookField(o.input)
    else if name == "result" then LookField(o.result)
    else if name == "error" then LookField(o.error)
    else if name == "terminal_sequence" then LookSequence(o.terminal)
    else NotAField
  }

  // ---------- the engine's answer ----------

  // `check_field_readiness` on a validated field
  function JudgeLook(l: Look): (Standing, Option<FieldFault>) {
    match l
    case NotAField => (NotValid, Some(NoField))
    case Offers(Available, _) => (Ready, None)
    case Offers(NotSupported, reason) => (NotSupportedHere, Some(FieldWithheld(NotSupported, reason)))
    case Offers(state, reason) => (NotIncomplete, Some(FieldWithheld(state, reason)))
  }

  function JudgeField(o: Observation, name: string): (Standing, Option<FieldFault>) {
    if name == "outcome" then
      if o.outcome.Missing? then (NotIncomplete, Some(OutcomeMissing)) else (Ready, None)
    else if name == "start_sequence" then
      if o.start > 0 then (Ready, None) else (NotValid, Some(StartInvalid))
    else if name == "result_or_error" then
      if o.outcome.Missing? then (NotIncomplete, Some(OutcomeMissing))
      else JudgeLook(LookField(if o.outcome.Success? then o.result else o.error))
    else JudgeLook(LookUp(o, name))
  }

  // The worst of what occurs: invalid, then incomplete, then unsupported.
  function WorstBy(invalid: bool, incomplete: bool, unsupported: bool): Standing {
    if invalid then NotValid
    else if incomplete then NotIncomplete
    else if unsupported then NotSupportedHere
    else Ready
  }

  function StandingOf(s: Status): Standing {
    match s
    case Complete => Ready
    case Unsupported => NotSupportedHere
    case Incomplete => NotIncomplete
    case Invalid => NotValid
  }

  predicate Covered(e: RuntimeEvidence, names: seq<string>) {
    forall i :: 0 <= i < |names| ==> names[i] in e.coverage.boundaries
  }

  predicate SomeBoundaryIs(e: RuntimeEvidence, names: seq<string>, standing: Standing)
    requires Covered(e, names)
  {
    exists i :: 0 <= i < |names| && StandingOf(e.coverage.boundaries[names[i]].status) == standing
  }

  // What a validated capture answers for a list of its boundaries.
  function BoundaryStanding(e: RuntimeEvidence, names: seq<string>): Standing
    requires Covered(e, names)
  {
    if names == [] then Ready
    else if e.status.Invalid? then NotValid
    else if e.status.Incomplete? then NotIncomplete
    else WorstBy(SomeBoundaryIs(e, names, NotValid), SomeBoundaryIs(e, names, NotIncomplete),
                 SomeBoundaryIs(e, names, NotSupportedHere))
  }

  predicate SomeFieldIs(os: seq<Observation>, fields: seq<string>, standing: Standing) {
    exists i, j :: 0 <= i < |os| && 0 <= j < |fields| && JudgeField(os[i], fields[j]).0 == standing
  }

  function FieldStanding(os: seq<Observation>, fields: seq<string>): Standing {
    WorstBy(SomeFieldIs(os, fields, NotValid), SomeFieldIs(os, fields, NotIncomplete),
            SomeFieldIs(os, fields, NotSupportedHere))
  }

  predicate AllNamed(names: seq<Option<string>>) {
    forall i :: 0 <= i < |names| ==> Named(names[i])
  }

  // The engine's standing for any evidence object and any requirement.
  ghost function EngineStanding(e: RuntimeEvidence, q: Requirement): Standing {
    if !AllNamed(q.fields) || !Valid(e) || !AllKnown(q.boundaries) then NotValid
    else
      ValidCovers(e, q.boundaries);
      var boundaries := BoundaryStanding(e, Texts(q.boundaries));
      if boundaries.Ready? && q.fields != [] then FieldStanding(e.observations, Texts(q.fields)) else boundaries
  }

  predicate AllKnown(names: seq<Option<string>>) {
    forall i :: 0 <= i < |names| ==> names[i].Some? && Known(names[i].value)
  }

  function Texts(names: seq<Option<string>>): seq<string> {
    if names == [] then []
    else Texts(names[..|names| - 1]) + if Named(names[|names| - 1]) then [names[|names| - 1].value] else []
  }

  lemma {:induction false} TextsMembers(names: seq<Option<string>>)
    ensures forall x :: x in Texts(names) <==> x != "" && Some(x) in names
  {
    if names != [] {
      assert names == names[..|names| - 1] + [names[|names| - 1]];
      TextsMembers(names[..|names| - 1]);
    }
  }

  lemma ValidCovers(e: RuntimeEvidence, names: seq<Option<string>>)
    requires Valid(e) && AllKnown(names)
    ensures Covered(e, Texts(names)) && forall n :: n in Texts(names) ==> n in e.coverage.boundaries && Known(n)
    ensures names != [] ==> Texts(names) != []
  {
    hide ValidWithoutTransport, ValidObserved, ValidBoundary, ValidCodes;
    TextsMembers(names);
    assert forall i :: 0 <= i < |Texts(names)| ==> Texts(names)[i] in Texts(names);
    if names != [] {
      assert |NATIVE| == 6 && |CODE_EXECUTION| == 19 && |CODE_FINALITY| == 18;
      assert names[0] in names && names[0].value in Texts(names);
    }
  }

  method DedupeValues<T(==, !new)>(values: seq<T>) returns (r: seq<T>)
    ensures r == Dedupe(values)
  {
    var seen: set<T> := {};
    r := [];
    for i := 0 to |values|
      invariant r == Dedupe(values[..i]) && forall x :: x in seen <==> x in r
    {
      SnocPrefix(values, i);
      AddNewMembers(r, values[i]);
      if values[i] !in seen {
        seen := seen + {values[i]};
        r := r + [values[i]];
      }
    }
    assert values[..|values|] == values;
  }

  // `_normalize_requirement`: None with the reasons when a name is not known.
  method NormalizeBoundaries(names: seq<Option<string>>) returns (r: Option<seq<string>>, reasons: seq<Reason>)
    ensures r.Some? <==> AllKnown(names)
    ensures r.Some? <==>
              forall i :: 0 <= i < |names| ==> names[i] in {Some(NATIVE), Some(CODE_EXECUTION), Some(CODE_FINALITY)}
    ensures r.Some? ==> r.value == Dedupe(Texts(names)) && reasons == []
    ensures r.None? ==> reasons != []
  {
    var normalized: seq<string> := [];
    reasons := [];
    for i := 0 to |names|
      invariant reasons == [] <==> AllKnown(names[..i])
      invariant reasons == [] ==> normalized == Dedupe(Texts(names[..i]))
    {
      SnocPrefix(names, i);
      var name := names[i];
      if !Named(name) {
        reasons := reasons + [BadBoundaryName];
        assert !AllKnown(names[..i + 1]) by {
          assert names[..i + 1][i] == name && |NATIVE| == 6 && |CODE_EXECUTION| == 19 && |CODE_FINALITY| == 18;
        }
        continue;
      }
      if !Known(name.value) {
        reasons := reasons + [UnknownBoundary(name.value)];
        continue;
      }
      DedupeSnoc(Texts(names[..i]), name.value);
      if name.value !in normalized {
        normalized := normalized + [name.value];
      }
    }
    assert names[..|names|] == names;
    if reasons != [] {
      var given := DedupeValues(reasons);
      assert reasons[0] in given;
      return None, given;
    }
    return Some(normalized), [];
  }

  lemma DedupeSnoc<T(!new)>(xs: seq<T>, x: T)
    ensures Dedupe(xs + [x]) == AddNew(Dedupe(xs), x)
  {}

  // `_boundary_reasons`
  method BoundaryReasons(name: string, b: PublicBoundary) returns (reasons: seq<Reason>)
    ensures BoundaryWas(b.status, name) in reasons
    ensures forall x :: x in reasons <==>
              x == BoundaryWas(b.status, name) || (x.BoundaryNoted? && x.name == name && x.code in b.issues)
  {
    reasons := [BoundaryWas(b.status, name)];
    for i := 0 to |b.issues|
      invariant forall x :: x in reasons <==>
                  x == BoundaryWas(b.status, name) || (x.BoundaryNoted? && x.name == name && x.code in b.issues[..i])
    {
      SnocPrefix(b.issues, i);
      reasons := reasons + [BoundaryNoted(name, b.issues[i])];
    }
    assert b.issues[..|b.issues|] == b.issues;
    reasons := DedupeValues(reasons);
  }

  // `_capture_reasons`
  method CaptureReasons(e: RuntimeEvidence, names: seq<string>) returns (reasons: seq<Reason>)
    requires forall n :: n in names ==> n in e.coverage.boundaries
    ensures CaptureWas(e.status) in reasons
    ensures forall x :: x in e.coverage.losses ==> CaptureLost(x) in reasons
  {
    reasons := [CaptureWas(e.status)];
    if !e.coverage.process.Completed? {
      reasons := reasons + [ProcessWas(e.coverage.process)];
    }
    var losses := e.coverage.losses;
    for i := 0 to |losses|
      invariant CaptureWas(e.status) in reasons && forall x :: x in losses[..i] ==> CaptureLost(x) in reasons
    {
      SnocPrefix(losses, i);
      reasons := reasons + [CaptureLost(losses[i])];
    }
    assert losses[..|losses|] == losses;
    for i := 0 to |names|
      invariant CaptureWas(e.status) in reasons && forall x :: x in losses ==> CaptureLost(x) in reasons
    {
      assert names[i] in names;
      var b := e.coverage.boundaries[names[i]];
      if !b.status.Complete? {
        var more := BoundaryReasons(names[i], b);
        reasons := reasons + more;
      }
    }
    reasons := DedupeValues(reasons);
  }

  // The standing drawn from a list of what was not ready.
  function Gravest(standings: seq<Standing>): Standing {
    WorstBy(NotValid in standings, NotIncomplete in standings, NotSupportedHere in standings)
  }

  // `_check_boundary_readiness` past the overall status: the loop over the required boundaries.
  method WeighBoundaries(e: RuntimeEvidence, names: seq<string>) returns (r: Readiness)
    requires Covered(e, names)
    ensures r.required == names
    ensures r.standing == WorstBy(SomeBoundaryIs(e, names, NotValid), SomeBoundaryIs(e, names, NotIncomplete),
                                  SomeBoundaryIs(e, names, NotSupportedHere))
    ensures r.reasons == [] <==> r.standing.Ready?
  {
    var reasons: seq<Reason> := [];
    var standings: seq<Standing> := [];
    for i := 0 to |names|
      invariant forall x :: x in standings <==> !x.Ready? && SomeBoundaryIs(e, names[..i], x)
      invariant reasons == [] <==> standings == []
    {
      SnocPrefix(names, i);
      ghost var before, after := names[..i], names[..i + 1];
      assert forall j :: 0 <= j < i ==> after[j] == before[j];
      var b := e.coverage.boundaries[names[i]];
      assert after[i] == names[i];
      if !b.status.Complete? {
        standings := standings + [StandingOf(b.status)];
        var more := BoundaryReasons(names[i], b);
        reasons := reasons + more;
      }
    }
    assert names[..|names|] == names;
    if standings != [] { assert standings[0] in standings; }
    var given := DedupeValues(reasons);
    if reasons != [] { assert reasons[0] in given; }
    r := Readiness(Gravest(standings), given, names);
  }

  // `_check_boundary_readiness`
  method CheckBoundaryReadiness(e: RuntimeEvidence, q: Requirement) returns (r: Readiness)
    ensures r.standing == EngineStanding(e, q.(fields := []))
    ensures r.reasons == [] <==> r.standing.Ready?
    ensures Valid(e) && AllKnown(q.boundaries) ==> r.required == Dedupe(Texts(q.boundaries))
  {
    hide Valid;
    var valid := ValidateRuntimeEvidence(e);
    if !valid {
      var declared := DedupeValues(Texts(q.boundaries));
      return Readiness(NotValid, [EvidenceRejected, ValidationError], declared);
    }
    var names, faults := NormalizeBoundaries(q.boundaries);
    if names.None? {
      var declared := DedupeValues(Texts(q.boundaries));
      return Readiness(NotValid, faults, declared);
    }
    ValidCovers(e, q.boundaries);
    SameCover(e, Texts(q.boundaries));
    if names.value == [] {
      return Readiness(Ready, [], []);
    }
    DedupeEmpty(Texts(q.boundaries));
    if e.status.Invalid? {
      var reasons := CaptureReasons(e, names.value);
      return Readiness(NotValid, reasons, names.value);
    }
    if e.status.Incomplete? {
      var reasons := CaptureReasons(e, names.value);
      return Readiness(NotIncomplete, reasons, names.value);
    }
    r := WeighBoundaries(e, names.value);
  }

  // A name given twice changes nothing.
  lemma SameCover(e: RuntimeEvidence, names: seq<string>)
    requires Covered(e, names)
    ensures Covered(e, Dedupe(names))
    ensures forall x :: SomeBoundaryIs(e, Dedupe(names), x) <==> SomeBoundaryIs(e, names, x)
  {
    var few := Dedupe(names);
    forall i | 0 <= i < |few| ensures few[i] in e.coverage.boundaries { assert few[i] in names; }
    forall x ensures SomeBoundaryIs(e, few, x) <==> SomeBoundaryIs(e, names, x) {
      if i :| 0 <= i < |few| && StandingOf(e.coverage.boundaries[few[i]].status) == x { assert few[i] in names; }
      if i :| 0 <= i < |names| && StandingOf(e.coverage.boundaries[names[i]].status) == x { assert names[i] in few; }
    }
  }

  // `check_evidence_readiness`
  method CheckEvidenceReadiness(e: RuntimeEvidence, q: Requirement) returns (r: Readiness)
    ensures r.standing == EngineStanding(e, q)
    ensures r.reasons == [] <==> r.standing.Ready?
  {
    hide Valid;
    r := CheckBoundaryReadiness(e, q);
    if exists i :: 0 <= i < |q.fields| && !Named(q.fields[i]) {
      return Readiness(NotValid, r.reasons + [BadFieldNames], r.required);
    }
    if !r.standing.Ready? || q.fields == [] {
      return r;
    }
    var fields := Texts(q.fields);
    var standings: seq<Standing> := [];
    var reasons: seq<Reason> := [];
    for i := 0 to |e.observations|
      invariant forall x :: x in standings <==> !x.Ready? && SomeFieldIs(e.observations[..i], fields, x)
      invariant reasons == [] <==> standings == []
    {
      SnocPrefix(e.observations, i);
      var more, why := CheckFields(e.observations[i], i, fields);
      FieldsSnoc(e.observations[..i], e.observations[i], fields);
      standings := standings + more;
      reasons := reasons + why;
    }
    assert e.observations[..|e.observations|] == e.observations;
    if standings == [] {
      return r;
    }
    assert standings[0] in standings;
    var given := DedupeValues(reasons);
    assert reasons[0] in given;
    r := Readiness(Gravest(standings), given, r.required);
  }

  // The inner loop: the required fields of one observation.
  method CheckFields(o: Observation, index: nat, fields: seq<string>)
    returns (standings: seq<Standing>, reasons: seq<Reason>)
    ensures forall x :: x in standings <==> !x.Ready? && SomeFieldIs([o], fields, x)
    ensures reasons == [] <==> standings == []
  {
    standings, reasons := [], [];
    for j := 0 to |fields|
      invariant forall x :: x in standings <==> !x.Ready? && exists k :: 0 <= k < j && JudgeField(o, fields[k]).0 == x
      invariant reasons == [] <==> standings == []
    {
      var (standing, fault) := JudgeField(o, fields[j]);
      if !standing.Ready? {
        standings := standings + [standing];
        reasons := reasons + [FieldLacking(fault.value, index, fields[j])];
      }
    }
    assert [o][0] == o;
  }

  lemma FieldsSnoc(os: seq<Observation>, o: Observation, fields: seq<string>)
    ensures forall x :: SomeFieldIs(os + [o], fields, x) <==> SomeFieldIs(os, fields, x) || SomeFieldIs([o], fields, x)
  {
    var all := os + [o];
    assert forall i :: 0 <= i < |os| ==> all[i] == os[i];
    assert all[|os|] == o == [o][0];
    forall x ensures SomeFieldIs(all, fields, x) <==> SomeFieldIs(os, fields, x) || SomeFieldIs([o], fields, x) {
      if SomeFieldIs([o], fields, x) {
        var j :| 0 <= j < |fields| && JudgeField([o][0], fields[j]).0 == x;
        assert JudgeField(all[|os|], fields[j]).0 == x;
      }
      if SomeFieldIs(os, fields, x) {
        var i, j :| 0 <= i < |os| && 0 <= j < |fields| && JudgeField(os[i], fields[j]).0 == x;
        assert JudgeField(all[i], fields[j]).0 == x;
      }
    }
  }

  // ---------- the pipeline's own answer ----------

  const KEYS: seq<string> := FIELDS + ["invocation_id", "mode", "outcome", "start_sequence"]

  function FirstNameFault(e: RuntimeEvidence, names: seq<Option<string>>): Option<Status> {
    if names == [] then None
    else if !Named(names[0]) then Some(Invalid)
    else if names[0].value !in e.coverage.boundaries then Some(Unsupported)
    else FirstNameFault(e, names[1..])
  }

  // The observation a dictionary keyed by id holds: the last one with that id.
  function ById(os: seq<Observation>, id: string): Option<Observation> {
    if os == [] then None
    else if os[|os| - 1].id == id then Some(os[|os| - 1])
    else ById(os[..|os| - 1], id)
  }

  function FieldStatus(os: seq<Observation>, field: (Option<string>, Option<string>)): Status {
    if !Named(field.0) || !Named(field.1) then Invalid
    else
      var item := ById(os, field.0.value);
      var name := field.1.value;
      if item.None? || name !in KEYS then Unsupported
      else if name == "mode" || name == "outcome" || name == "start_sequence" then Complete
      else
        match LookUp(item.value, name)
        case NotAField => Invalid
        case Offers(Available, _) => Complete
        case Offers(NotSupported, _) => Unsupported
        case Offers(_, _) => Incomplete
  }

  // The first field requirement that is not met decides.
  function FieldsStatus(os: seq<Observation>, fields: seq<(Option<string>, Option<string>)>): Status {
    if fields == [] then Complete
    else if FieldStatus(os, fields[0]) != Complete then FieldStatus(os, fields[0])
    else FieldsStatus(os, fields[1..])
  }

  function WorstStatus(invalid: bool, incomplete: bool, unsupported: bool): Status {
    if invalid then Invalid else if incomplete then Incomplete else if unsupported then Unsupported else Complete
  }

  predicate SomeStatusIs(e: RuntimeEvidence, names: seq<Option<string>>, s: Status) {
    exists i :: 0 <= i < |names| && names[i].Some? && names[i].value in e.coverage.boundaries
                && e.coverage.boundaries[names[i].value].status == s
  }

  function PipelineStatus(e: RuntimeEvidence, names: seq<Option<string>>,
                          fields: seq<(Option<string>, Option<string>)>):
    Status
  {
    if e.status.Invalid? then Invalid
    else if e.status.Incomplete? || e.coverage.process.TimedOut? || e.coverage.process.Interrupted? then Incomplete
    else if FirstNameFault(e, names).Some? then FirstNameFault(e, names).value
    else
      var worst := WorstStatus(SomeStatusIs(e, names, Invalid), SomeStatusIs(e, names, Incomplete),
                               SomeStatusIs(e, names, Unsupported));
      if worst.Complete? then FieldsStatus(e.observations, fields) else worst
  }

  lemma StatusSnoc(e: RuntimeEvidence, names: seq<Option<string>>, name: Option<string>)
    requires name.Some? && name.value in e.coverage.boundaries
    ensures forall x :: SomeStatusIs(e, names + [name], x)
                        <==> SomeStatusIs(e, names, x) || e.coverage.boundaries[name.value].status == x
  {
    var all := names + [name];
    assert all[|names|] == name && forall i :: 0 <= i < |names| ==> all[i] == names[i];
  }

  // `assertion_status`
  method AssertionStatus(e: RuntimeEvidence, names: seq<Option<string>>, fields: seq<(Option<string>, Option<string>)>)
    returns (r: Status)
    ensures r == PipelineStatus(e, names, fields)
  {
    if e.status.Invalid? {
      return Invalid;
    }
    if e.status.Incomplete? || e.coverage.process.TimedOut? || e.coverage.process.Interrupted? {
      return Incomplete;
    }
    var statuses: seq<Status> := [];
    for i := 0 to |names|
      invariant FirstNameFault(e, names) == FirstNameFault(e, names[i..])
      invariant forall x :: x in statuses <==> SomeStatusIs(e, names[..i], x)
    {
      SnocPrefix(names, i);
      assert names[i..][0] == names[i] && names[i..][1..] == names[i + 1..];
      if !Named(names[i]) {
        return Invalid;
      }
      if names[i].value !in e.coverage.boundaries {
        return Unsupported;
      }
      StatusSnoc(e, names[..i], names[i]);
      statuses := statuses + [e.coverage.boundaries[names[i].value].status];
    }
    assert names[..|names|] == names;
    if Invalid in statuses {
      return Invalid;
    }
    if Incomplete in statuses {
      return Incomplete;
    }
    if Unsupported in statuses {
      return Unsupported;
    }
    for i := 0 to |fields|
      invariant FieldsStatus(e.observations, fields) == FieldsStatus(e.observations, fields[i..])
    {
      assert fields[i..][0] == fields[i] && fields[i..][1..] == fields[i + 1..];
      var status := FieldStatus(e.observations, fields[i]);
      if !status.Complete? {
        return status;
      }
    }
    return Complete;
  }
}

// The two answers agree, and what "ready" does and does not say.
module ReadinessLaws {
  import opened Wrappers
  import opened Vocabulary
  import opened Records
  import opened Evidence
  import opened Accounting
  import opened AccountingSpec
  import opened Validator
  import opened Builder
  import opened Agreement
  import opened Loader
  import opened LossDetection
  import opened Readiness

  // A capture cut short never validates as better than incomplete.
  lemma CutShortIsNotComplete(e: RuntimeEvidence)
    requires Valid(e) && (e.coverage.process.TimedOut? || e.coverage.process.Interrupted?)
    ensures e.status.Incomplete? || e.status.Invalid?
  {
    hide Valid, ValidHeader, ValidTotals, ValidObservations, AccountFor, Reconstruct, Entries;
    FixedDeclaration();
    ObservedParts(e);
    var c := e.coverage;
    AccountMeetsSpec(
      Reconstruct(e.observations) + (if SomeInvalidLoss(c.losses) then [MARKER] else []), SUPPORTED, UNSUPPORTED,
      Environment(c.closed.ClosedIs? && c.closed.closed, PublicFailures(c.observerFailures),
                  PublicFailures(c.callbackFailures), LossCount(c.losses), Some(c.process)));
  }

  lemma ObservedParts(e: RuntimeEvidence)
    requires Valid(e)
    ensures e.coverage.boundaries.Keys == {NATIVE, CODE_EXECUTION, CODE_FINALITY}
    ensures PublicFailures(e.coverage.observerFailures) >= 0 && PublicFailures(e.coverage.callbackFailures) >= 0
    ensures !e.coverage.process.NoTransport? ==>
              AgreesWithAccounting(e) && e.coverage.boundaries[CODE_FINALITY].status.Unsupported?
              && ValidObservations(e.observations, e.status)
    ensures e.coverage.process.NoTransport? ==> e.status.Unsupported? && e.observations == []
  {
    hide ValidObservations, AgreesWithAccounting, ValidBoundary, ValidTotals;
  }

  lemma NoNameFault(e: RuntimeEvidence, names: seq<Option<string>>)
    requires AllKnown(names) && e.coverage.boundaries.Keys == {NATIVE, CODE_EXECUTION, CODE_FINALITY}
    ensures FirstNameFault(e, names) == None
  {}

  lemma SameBoundaries(e: RuntimeEvidence, names: seq<Option<string>>, s: Status)
    requires AllKnown(names) && Covered(e, Texts(names))
    ensures SomeBoundaryIs(e, Texts(names), StandingOf(s)) <==> SomeStatusIs(e, names, s)
  {
    var texts := Texts(names);
    TextsMembers(names);
    if i :| 0 <= i < |texts| && StandingOf(e.coverage.boundaries[texts[i]].status) == StandingOf(s) {
      assert texts[i] in texts;
      var k :| 0 <= k < |names| && names[k] == Some(texts[i]);
    }
    if i :| 0 <= i < |names| && names[i].Some? && names[i].value in e.coverage.boundaries
            && e.coverage.boundaries[names[i].value].status == s {
      assert |NATIVE| == 6 && |CODE_EXECUTION| == 19 && |CODE_FINALITY| == 18;
      assert names[i] in names && names[i].value in texts;
      var k :| 0 <= k < |texts| && texts[k] == names[i].value;
    }
  }

  // THE TWO EVALUATORS AGREE on validated evidence and any non-empty list of known boundaries.
  lemma EvaluatorsAgree(e: RuntimeEvidence, names: seq<Option<string>>)
    requires Valid(e) && AllKnown(names) && names != []
    ensures EngineStanding(e, Requirement(names, [])) == StandingOf(PipelineStatus(e, names, []))
  {
    hide Valid, FirstNameFault, SomeBoundaryIs, SomeStatusIs, Texts;
    ValidCovers(e, names);
    ObservedParts(e);
    NoNameFault(e, names);
    SameBoundaries(e, names, Invalid);
    SameBoundaries(e, names, Incomplete);
    SameBoundaries(e, names, Unsupported);
    if e.coverage.process.TimedOut? || e.coverage.process.Interrupted? { CutShortIsNotComplete(e); }
  }

  // ---------- with field requirements ----------

  // Every field of every observation, as the pipeline wants its requirements.
  function EveryField(os: seq<Observation>, fields: seq<string>): seq<(Option<string>, Option<string>)> {
    if os == [] then [] else EveryField(os[..|os| - 1], fields) + FieldsOfOne(os[|os| - 1].id, fields)
  }

  function FieldsOfOne(id: string, fields: seq<string>): seq<(Option<string>, Option<string>)> {
    seq(|fields|, j requires 0 <= j < |fields| => (Some(id), Some(fields[j])))
  }

  lemma {:induction false} EveryFieldMembers(os: seq<Observation>, fields: seq<string>)
    ensures forall x :: x in EveryField(os, fields) <==>
              exists i, j :: 0 <= i < |os| && 0 <= j < |fields| && x == (Some(os[i].id), Some(fields[j]))
  {
    if os != [] {
      var front := os[..|os| - 1];
      EveryFieldMembers(front, fields);
      forall x | exists i, j :: 0 <= i < |os| && 0 <= j < |fields| && x == (Some(os[i].id), Some(fields[j]))
        ensures x in EveryField(os, fields)
      {
        var i, j :| 0 <= i < |os| && 0 <= j < |fields| && x == (Some(os[i].id), Some(fields[j]));
        if i < |front| { assert x == (Some(front[i].id), Some(fields[j])); }
        else { assert FieldsOfOne(os[i].id, fields)[j] == x; }
      }
      forall x | x in EveryField(os, fields)
        ensures exists i, j :: 0 <= i < |os| && 0 <= j < |fields| && x == (Some(os[i].id), Some(fields[j]))
      {
        if x in EveryField(front, fields) {
          var i, j :| 0 <= i < |front| && 0 <= j < |fields| && x == (Some(front[i].id), Some(fields[j]));
          assert x == (Some(os[i].id), Some(fields[j]));
        }
      }
    }
  }

  lemma {:induction false} AllFieldsMet(os: seq<Observation>, fields: seq<(Option<string>, Option<string>)>)
    ensures FieldsStatus(os, fields) == Complete <==> forall x :: x in fields ==> FieldStatus(os, x) == Complete
  {
    if fields != [] {
      hide FieldStatus;
      AllFieldsMet(os, fields[1..]);
      assert fields == [fields[0]] + fields[1..];
      assert fields[0] in fields;
    }
  }

  predicate DistinctIds(os: seq<Observation>) {
    forall i, j :: 0 <= i < j < |os| ==> os[i].id != os[j].id
  }

  lemma {:induction false} FoundById(os: seq<Observation>, i: nat)
    requires i < |os| && DistinctIds(os)
    ensures ById(os, os[i].id) == Some(os[i])
  {
    if i < |os| - 1 {
      var front := os[..|os| - 1];
      assert front[i] == os[i];
      FoundById(front, i);
    }
  }

  lemma ValidIdsAreDistinct(os: seq<Observation>, status: Status)
    requires ValidObservations(os, status)
    ensures DistinctIds(os) && forall i :: 0 <= i < |os| ==> NonBlank(os[i].id)
  {
    forall i, j | 0 <= i < j < |os| ensures os[i].id != os[j].id {
      assert Follows(os[..j], os[j], status) && os[..j][i] == os[i];
    }
  }

  // The pipeline calls one field of one observation complete exactly when the engine calls it ready.
  lemma OneFieldAgrees(os: seq<Observation>, i: nat, name: string)
    requires i < |os| && DistinctIds(os) && NonBlank(os[i].id) && name in FIELDS
    ensures name != ""
    ensures FieldStatus(os, (Some(os[i].id), Some(name))) == Complete <==> JudgeField(os[i], name).0 == Ready
  {
    FoundById(os, i);
    assert |"tool"| == 4 && |"actor"| == 5 && |"session_id"| == 10 && |"message_id"| == 10 && |"call_id"| == 7;
    assert |"parent"| == 6 && |"input"| == 5 && |"result"| == 6 && |"error"| == 5 && |"terminal_sequence"| == 17;
    assert |"outcome"| == 7 && |"start_sequence"| == 14 && |"result_or_error"| == 15 && |"mode"| == 4;
    assert "mode"[0] == 'm' && "tool"[0] == 't' && "call_id"[0] == 'c' && "outcome"[0] == 'o';
    assert name in KEYS;
  }

  predicate PlainFields(fields: seq<Option<string>>) {
    forall i :: 0 <= i < |fields| ==> Named(fields[i]) && fields[i].value in FIELDS
  }

  lemma FieldStandingReady(os: seq<Observation>, fields: seq<string>)
    ensures FieldStanding(os, fields) == Ready <==>
              forall i, j :: 0 <= i < |os| && 0 <= j < |fields| ==> JudgeField(os[i], fields[j]).0 == Ready
  {}

  predicate TextualIds(os: seq<Observation>) {
    forall i :: 0 <= i < |os| ==> NonBlank(os[i].id)
  }

  lemma FieldsAgree(os: seq<Observation>, given: seq<string>)
    requires DistinctIds(os) && TextualIds(os) && forall j :: 0 <= j < |given| ==> given[j] in FIELDS
    ensures FieldStanding(os, given) == Ready <==> FieldsStatus(os, EveryField(os, given)) == Complete
  {
    hide DistinctIds, NonBlank, JudgeField, FieldStatus, FieldsStatus, FieldStanding, EveryField;
    EveryFieldMembers(os, given);
    AllFieldsMet(os, EveryField(os, given));
    FieldStandingReady(os, given);
    forall i, j | 0 <= i < |os| && 0 <= j < |given|
      ensures FieldStatus(os, (Some(os[i].id), Some(given[j]))) == Complete <==> JudgeField(os[i], given[j]).0 == Ready
    {
      OneFieldAgrees(os, i, given[j]);
    }
    MetEverywhere(os, given);
  }

  lemma PipelineSplits(e: RuntimeEvidence, names: seq<Option<string>>, fields: seq<(Option<string>, Option<string>)>)
    ensures PipelineStatus(e, names, fields) == Complete
            <==> PipelineStatus(e, names, []) == Complete && FieldsStatus(e.observations, fields) == Complete
    requires FirstNameFault(e, names) == None
  {}

  lemma EngineSplits(e: RuntimeEvidence, names: seq<Option<string>>, fields: seq<Option<string>>)
    requires AllNamed(fields)
    ensures EngineStanding(e, Requirement(names, fields)) == Ready
            <==> (&& EngineStanding(e, Requirement(names, [])) == Ready
                  && (fields != [] ==> FieldStanding(e.observations, Texts(fields)) == Ready))
  {
    hide Valid, Texts, FieldStanding, BoundaryStanding;
  }

  // Asked for the same fields of every observation, the pipeline says complete exactly when the engine is ready.
  lemma EvaluatorsAgreeOnFields(e: RuntimeEvidence, names: seq<Option<string>>, fields: seq<Option<string>>)
    requires Valid(e) && AllKnown(names) && names != [] && PlainFields(fields)
    ensures EngineStanding(e, Requirement(names, fields)) == Ready
            <==> PipelineStatus(e, names, EveryField(e.observations, Texts(fields))) == Complete
  {
    hide Valid, FirstNameFault, Texts, ValidObservations, FieldsStatus, FieldStanding, EveryField, NonBlank,
      DistinctIds, EngineStanding, PipelineStatus;
    var os, given := e.observations, Texts(fields);
    EvaluatorsAgree(e, names);
    ObservedParts(e);
    NoNameFault(e, names);
    TextsMembers(fields);
    assert forall j :: 0 <= j < |given| ==> given[j] in given;
    if !e.coverage.process.NoTransport? { ValidIdsAreDistinct(os, e.status); } else { NoneAreDistinct(os); }
    FieldsAgree(os, given);
    EngineSplits(e, names, fields);
    PipelineSplits(e, names, EveryField(os, given));
    NoFieldsNoTexts(fields);
    FieldStandingReady(os, given);
  }

  lemma NoneAreDistinct(os: seq<Observation>)
    requires os == []
    ensures DistinctIds(os)
  {}

  lemma NoFieldsNoTexts(fields: seq<Option<string>>)
    ensures fields == [] ==> Texts(fields) == []
  {}

  lemma MetEverywhere(os: seq<Observation>, given: seq<string>)
    requires forall x :: x in EveryField(os, given) <==>
               exists i, j :: 0 <= i < |os| && 0 <= j < |given| && x == (Some(os[i].id), Some(given[j]))
    ensures (forall x :: x in EveryField(os, given) ==> FieldStatus(os, x) == Complete)
            <==> forall i, j :: 0 <= i < |os| && 0 <= j < |given| ==>
                   FieldStatus(os, (Some(os[i].id), Some(given[j]))) == Complete
  {}

  // ---------- ready is not complete ----------

  // Evidence that is ready for some boundary is complete evidence exactly when the transport could observe.
  lemma ReadyMeansComplete(e: RuntimeEvidence, names: seq<Option<string>>)
    requires Valid(e) && AllKnown(names) && names != []
    requires EngineStanding(e, Requirement(names, [])) == Ready
    ensures e.status.Complete? <==> !e.coverage.process.NoTransport?
  {
    hide Valid, FirstNameFault, AccountFor, Reconstruct;
    ValidCovers(e, names);
    ObservedParts(e);
    if !e.coverage.process.NoTransport? {
      var n := Texts(names)[0];
      var here := StandingOf(e.coverage.boundaries[n].status);
      assert SomeBoundaryIs(e, Texts(names), here);
      assert e.coverage.boundaries[n].status.Complete?;
      assert n in Texts(names) && n != CODE_FINALITY;
      var a := Reaccounted(e);
      assert a.boundaries[n].status.Complete?;
      ReaccountedOverall(e, n);
    }
  }

  lemma ReaccountedOverall(e: RuntimeEvidence, n: string)
    requires Valid(e) && n in Reaccounted(e).boundaries && Reaccounted(e).boundaries[n].status.Complete?
    ensures Reaccounted(e).status.Invalid? || Reaccounted(e).status.Incomplete? || Reaccounted(e).status.Complete?
  {
    hide Valid, Run, Settle, LedgerIssues, EnvironmentIssues, Reconstruct, ValidDeclaration, SomeInvalid,
      SomeIncomplete, LossCount, SomeInvalidLoss;
    ObservedParts(e);
    FixedDeclaration();
  }

  // Evidence of a transport that could not observe, whose boundaries nevertheless say "complete".
  function Unobserved(): RuntimeEvidence {
    var none := NoCount(NotSupported, MISSING);
    var fine := PublicBoundary(Complete, true, none, none, none, []);
    RuntimeEvidence(
      Unsupported, false, [],
      Coverage(ClosedWithheld(NotSupported, MISSING), NoTransport, none, none, none, none, none, [], [CodeModeFinality],
               map[NATIVE := fine, CODE_EXECUTION := fine, CODE_FINALITY := fine]))
  }

  // For such evidence both evaluators answer as for a healthy capture although its status is "unsupported".
  lemma UnobservedIsValid()
    ensures Valid(Unobserved())
  {
    hide ValidObserved, NonBlank;
    BoundaryNamesDiffer();
    OwnReasonsAreText();
  }

  lemma UnobservedIsReady()
    ensures var e := Unobserved();
            && Valid(e) && !e.status.Complete? && AllKnown([Some(NATIVE)])
            && EngineStanding(e, Requirement([Some(NATIVE)], [])) == Ready
            && PipelineStatus(e, [Some(NATIVE)], []) == Complete
  {
    hide Valid, EngineStanding;
    var e := Unobserved();
    BoundaryNamesDiffer();
    UnobservedIsValid();
    var names := [Some(NATIVE)];
    EvaluatorsAgree(e, names);
    ValidCovers(e, names);
    NoNameFault(e, names);
    assert forall s :: SomeStatusIs(e, names, s) ==> s == Complete;
  }

  // ---------- the start sequence ----------

  // Asked for the start sequence, the engine wants it positive; the validator and the pipeline do not.
  lemma StartSequenceExactly(e: RuntimeEvidence, names: seq<Option<string>>)
    requires Valid(e) && AllKnown(names) && EngineStanding(e, Requirement(names, [])) == Ready
    ensures EngineStanding(e, Requirement(names, [Some("start_sequence")])) == Ready
            <==> forall i :: 0 <= i < |e.observations| ==> e.observations[i].start >= 1
  {
    hide Valid, BoundaryStanding;
    var fields := [Some("start_sequence")];
    assert Texts(fields) == ["start_sequence"] by {
      assert |"start_sequence"| == 14 && fields[..0] == [] && Texts(fields[..0]) == [];
    }
    assert |"start_sequence"| == 14 && |"outcome"| == 7;
    assert Named(fields[0]) && AllNamed(fields);
    FieldStandingReady(e.observations, ["start_sequence"]);
    assert forall i :: 0 <= i < |e.observations| ==>
             (JudgeField(e.observations[i], "start_sequence").0 == Ready <==> e.observations[i].start > 0);
    if FieldStanding(e.observations, ["start_sequence"]) == Ready {
      forall i | 0 <= i < |e.observations| ensures e.observations[i].start >= 1 {
        assert JudgeField(e.observations[i], ["start_sequence"][0]).0 == Ready;
      }
    }
  }

  predicate StartsPositive(t: Intake) {
    forall id :: id in t.starts ==> t.starts[id].sequence >= 1
  }

  lemma {:induction false} TakenStartsPositive(issues: seq<Code>, records: seq<Record>, bound: nat)
    requires InLineOrder(records, bound)
    ensures StartsPositive(Take(issues, records))
  {
    if records != [] {
      var front := records[..|records| - 1];
      assert forall i :: 0 <= i < |front| ==> front[i] == records[i];
      TakenStartsPositive(issues, front, bound);
    }
  }

  // Whatever arrives, every published observation starts at one or later, so that test never fires.
  lemma LoadedStartsArePositive(source: Source, issue: Option<Code>, guard: Guard, process: ProcessState)
    ensures var os := Build(Received(source, issue), guard, process).observations;
            forall i :: 0 <= i < |os| ==> os[i].start >= 1
  {
    hide Observe, BuilderAccount, Take, Sorted, Read, FinalIssues;
    var c := Received(source, issue);
    assert InLineOrder(c.records, if source.Bytes? then |source.lines| else 0) by {
      if source.Bytes? { RecordsInLineOrder(source.lines, source.terminated); }
    }
    TakenStartsPositive(c.issues, c.records, if source.Bytes? then |source.lines| else 0);
    var ids, t := Ids(c), Take(c.issues, c.records);
    var os := ObservationsOf(ids, t, guard);
    forall i | 0 <= i < |os| ensures os[i].start >= 1 {
      assert ids[i] in ids;
      ObservedStart(ids[i], t, guard);
    }
  }

  lemma ObservedStart(id: string, t: Intake, guard: Guard)
    requires id in t.starts
    ensures Observe(id, t.starts[id], Lookup(t.terminals, id), guard).start == t.starts[id].sequence
  {}

  // ---------- what a field requirement asks for ----------

  // The observation holds what the name asks for: the member of that name, a known outcome, a positive start, or the
  // result or error its outcome calls for.
  predicate Holds(o: Observation, name: string) {
    match name
    case "outcome" => !o.outcome.Missing?
    case "start_sequence" => o.start > 0
    case "result_or_error" => (o.outcome.Success? && o.result.Value?) || (o.outcome.Error? && o.error.Value?)
    case "tool" => o.tool.Value?
    case "actor" => o.actor.Value?
    case "session_id" => o.sessionId.Value?
    case "message_id" => o.messageId.Value?
    case "call_id" => o.callId.Value?
    case "parent" => !o.parent.ParentWithheld?
    case "input" => o.input.Value?
    case "result" => o.result.Value?
    case "error" => o.error.Value?
    case "terminal_sequence" => o.terminal.At?
    case _ => false
  }

  predicate Hides(f: Field, s: FieldState) { f.Withheld? && f.state == s }

  // It withholds it in this state.
  predicate Withholds(o: Observation, name: string, s: FieldState) {
    match name
    case "outcome" => false
    case "start_sequence" => false
    case "result_or_error" => (o.outcome.Success? && Hides(o.result, s)) || (o.outcome.Error? && Hides(o.error, s))
    case "tool" => Hides(o.tool, s)
    case "actor" => Hides(o.actor, s)
    case "session_id" => Hides(o.sessionId, s)
    case "message_id" => Hides(o.messageId, s)
    case "call_id" => Hides(o.callId, s)
    case "parent" => o.parent.ParentWithheld? && o.parent.state == s
    case "input" => Hides(o.input, s)
    case "result" => Hides(o.result, s)
    case "error" => Hides(o.error, s)
    case "terminal_sequence" => o.terminal.NoSequence? && o.terminal.state == s
    case _ => false
  }

  // Nothing is known yet of how the call ended.
  predicate Open(o: Observation, name: string) {
    o.outcome.Missing? && (name == "outcome" || name == "result_or_error")
  }

  lemma FieldLook(f: Field)
    requires ValidField(f)
    ensures var s := JudgeLook(LookField(f)).0;
            && (s == Ready <==> f.Value?) && (s == NotSupportedHere <==> Hides(f, NotSupported))
            && (s == NotIncomplete <==> Hides(f, Omitted) || Hides(f, Redacted))
  {}

  lemma ParentLook(p: ParentField)
    requires ValidParent(p)
    ensures var s := JudgeLook(LookParent(p)).0;
            && (s == Ready <==> !p.ParentWithheld?)
            && (s == NotSupportedHere <==> p.ParentWithheld? && p.state == NotSupported)
            && (s == NotIncomplete <==> p.ParentWithheld? && (p.state == Omitted || p.state == Redacted))
  {}

  lemma SequenceLook(t: SequenceField)
    requires ValidSequenceField(t)
    ensures var s := JudgeLook(LookSequence(t)).0;
            && (s == Ready <==> t.At?)
            && (s == NotSupportedHere <==> t.NoSequence? && t.state == NotSupported)
            && (s == NotIncomplete <==> t.NoSequence? && (t.state == Omitted || t.state == Redacted))
  {}

  lemma ShapeLooks(o: Observation)
    requires ValidShape(o)
    ensures ValidField(o.tool) && ValidField(o.actor) && ValidField(o.sessionId) && ValidField(o.messageId)
    ensures ValidField(o.callId) && ValidField(o.input) && ValidField(o.result) && ValidField(o.error)
    ensures ValidParent(o.parent) && ValidSequenceField(o.terminal)
  {}

  // The standing of a field against what is asked.
  predicate Stands(o: Observation, name: string) {
    var s := JudgeField(o, name).0;
    && (s == Ready <==> Holds(o, name))
    && (s == NotSupportedHere <==> Withholds(o, name, NotSupported))
    && (s == NotIncomplete <==> Open(o, name) || Withholds(o, name, Omitted) || Withholds(o, name, Redacted))
  }

  // A name that stands for one member.
  ghost predicate Names(o: Observation, name: string, f: Field) {
    && JudgeField(o, name) == JudgeLook(LookField(f)) && (Holds(o, name) <==> f.Value?)
    && (forall s :: Withholds(o, name, s) <==> Hides(f, s)) && !Open(o, name)
  }

  lemma MemberNames(o: Observation)
    ensures Names(o, "tool", o.tool)
    ensures Names(o, "actor", o.actor)
    ensures Names(o, "session_id", o.sessionId)
    ensures Names(o, "message_id", o.messageId)
    ensures Names(o, "call_id", o.callId)
    ensures Names(o, "input", o.input)
    ensures Names(o, "result", o.result)
    ensures Names(o, "error", o.error)
  {
    hide JudgeLook, LookField, LookParent, LookSequence, Hides;
  }

  lemma NamedStands(o: Observation, name: string, f: Field)
    requires Names(o, name, f) && ValidField(f)
    ensures Stands(o, name)
  {
    hide JudgeField, JudgeLook, LookField, ValidField, Holds, Withholds, Open, Hides;
    FieldLook(f);
  }

  lemma ParentStands(o: Observation)
    requires ValidParent(o.parent)
    ensures Stands(o, "parent")
  {
    hide JudgeLook, LookParent, ValidParent;
    ParentLook(o.parent);
  }

  lemma TerminalStands(o: Observation)
    requires ValidSequenceField(o.terminal)
    ensures Stands(o, "terminal_sequence")
  {
    hide JudgeLook, LookSequence, ValidSequenceField;
    SequenceLook(o.terminal);
  }

  lemma DerivedStands(o: Observation)
    requires ValidField(o.result) && ValidField(o.error)
    ensures Stands(o, "outcome") && Stands(o, "start_sequence") && Stands(o, "result_or_error")
  {
    hide JudgeLook, LookField, Hides, LookUp, ValidField;
    FieldLook(o.result);
    FieldLook(o.error);
  }

  lemma OtherStands(o: Observation, name: string)
    requires name !in FIELDS && name !in {"outcome", "start_sequence", "result_or_error"}
    ensures Stands(o, name)
  {
    assert FIELDS[0] == "tool" && FIELDS[1] == "actor" && FIELDS[2] == "session_id" && FIELDS[3] == "message_id";
    assert FIELDS[4] == "call_id" && FIELDS[5] == "parent" && FIELDS[6] == "input" && FIELDS[7] == "result";
    assert FIELDS[8] == "error" && FIELDS[9] == "terminal_sequence";
  }

  // THE STANDING OF ONE FIELD follows from the member it names and from no other.
  lemma FieldStandingExactly(o: Observation, name: string)
    requires ValidShape(o)
    ensures Stands(o, name)
  {
    hide ValidField, ValidParent, ValidSequenceField, ValidShape, Stands, Names;
    ShapeLooks(o);
    MemberNames(o);
    if name in {"outcome", "start_sequence", "result_or_error"} {
      DerivedStands(o);
    } else if name !in FIELDS {
      OtherStands(o, name);
    } else {
      NamedStands(o, "tool", o.tool);
      NamedStands(o, "actor", o.actor);
      NamedStands(o, "session_id", o.sessionId);
      NamedStands(o, "message_id", o.messageId);
      NamedStands(o, "call_id", o.callId);
      NamedStands(o, "input", o.input);
      NamedStands(o, "result", o.result);
      NamedStands(o, "error", o.error);
      ParentStands(o);
      TerminalStands(o);
    }
  }

  // EVIDENCE IS READY for boundaries and fields exactly if it is ready for the boundaries and every observation holds
  // every field asked for.
  lemma ReadyOnFieldsExactly(e: RuntimeEvidence, q: Requirement)
    requires Valid(e) && AllKnown(q.boundaries)
    ensures EngineStanding(e, q) == Ready <==>
            && EngineStanding(e, q.(fields := [])) == Ready
            && (forall j :: 0 <= j < |q.fields| ==> q.fields[j].Some? && q.fields[j].value != "")
            && forall i, j :: 0 <= i < |e.observations| && 0 <= j < |q.fields| ==>
                 Holds(e.observations[i], q.fields[j].value)
  {
    hide Valid, BoundaryStanding, JudgeField, Holds;
    ValidCovers(e, q.boundaries);
    if !AllNamed(q.fields) { return; }
    TextsAreFields(q.fields);
    ObservationsAreShaped(e);
    var os, names := e.observations, Texts(q.fields);
    forall i, j | 0 <= i < |os| && 0 <= j < |names|
      ensures JudgeField(os[i], names[j]).0 == Ready <==> Holds(os[i], names[j])
    {
      FieldStandingExactly(os[i], names[j]);
    }
    NoneIsWorse(os, names);
  }

  lemma {:induction false} TextsAreFields(fields: seq<Option<string>>)
    requires AllNamed(fields)
    ensures |Texts(fields)| == |fields| && forall j :: 0 <= j < |fields| ==> Texts(fields)[j] == fields[j].value
  {
    if fields != [] { TextsAreFields(fields[..|fields| - 1]); }
  }

  lemma ObservationsAreShaped(e: RuntimeEvidence)
    requires Valid(e)
    ensures forall i :: 0 <= i < |e.observations| ==> ValidShape(e.observations[i])
  {
    hide ValidShape, ValidHeader, AgreesWithAccounting, Follows;
  }

  lemma NoneIsWorse(os: seq<Observation>, names: seq<string>)
    ensures FieldStanding(os, names) == Ready <==>
            forall i, j :: 0 <= i < |os| && 0 <= j < |names| ==> JudgeField(os[i], names[j]).0 == Ready
  {
    hide JudgeField;
    if i, j :| 0 <= i < |os| && 0 <= j < |names| && JudgeField(os[i], names[j]).0 != Ready {
      assert SomeFieldIs(os, names, JudgeField(os[i], names[j]).0);
    }
  }
}
