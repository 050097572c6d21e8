// `account_runtime_evidence` as the loop it is: dictionaries, counters and lists updated in place,
// proved to leave exactly the account of the specification.

module AccountingLoop {
  import opened Wrappers
  import opened Sequences
  import opened Vocabulary
  import opened Accounting

  // The declared names of one kind, or None as soon as one of them is not a valid name.
  method CollectNames(raw: seq<Option<string>>) returns (names: Option<set<string>>)
    ensures names.Some? <==> forall i :: 0 <= i < |raw| ==> ValidName(raw[i])
    ensures names.Some? ==> names.value == Names(raw)
  {
    var target: set<string> := {};
    for i := 0 to |raw|
      invariant forall k :: 0 <= k < i ==> ValidName(raw[k])
      invariant target == Names(raw[..i])
    {
      if !ValidName(raw[i]) {
        return None;
      }
      assert raw[..i + 1] == raw[..i] + [raw[i]];
      assert forall k :: 0 <= k < i ==> raw[..i + 1][k] == raw[..i][k];
      target := target + {raw[i].value};
      assert raw[..i + 1][i].value in Names(raw[..i + 1]);
      assert forall x :: x in Names(raw[..i]) ==> x in Names(raw[..i + 1]) by {
        forall x | x in Names(raw[..i]) ensures x in Names(raw[..i + 1]) {
          var k :| 0 <= k < i && raw[..i][k] == Some(x);
          assert raw[..i + 1][k] == Some(x);
        }
      }
    }
    assert raw[..|raw|] == raw;
    return Some(target);
  }

  // The states of the required fields, or None at the first malformed one.
  method ReadStates(fields: seq<(Option<string>, Option<FieldState>)>) returns (r: Option<seq<FieldState>>)
    ensures r.Some? <==> ValidFields(fields)
    ensures r.Some? ==> r.value == States(fields)
  {
    var states: seq<FieldState> := [];
    for i := 0 to |fields|
      invariant forall k :: 0 <= k < i ==> ValidName(fields[k].0) && fields[k].1.Some?
      invariant |states| == i && forall k :: 0 <= k < i ==> states[k] == fields[k].1.value
    {
      if !ValidName(fields[i].0) || fields[i].1.None? {
        return None;
      }
      states := states + [fields[i].1.value];
    }
    return Some(states);
  }

  // The inner loop over the field states of one event.
  method ChargeStates(b: Boundary, omitted: nat, unsupportedFields: nat, states: seq<FieldState>)
    returns (charged: Boundary, omittedNow: nat, unsupportedNow: nat)
    ensures charged == Charge(b, states)
    ensures omittedNow == omitted + CountOf(states, Omitted)
    ensures unsupportedNow == unsupportedFields + CountOf(states, NotSupported)
  {
    charged, omittedNow, unsupportedNow := b, omitted, unsupportedFields;
    for i := 0 to |states|
      invariant charged == Charge(b, states[..i])
      invariant omittedNow == omitted + CountOf(states[..i], Omitted)
      invariant unsupportedNow == unsupportedFields + CountOf(states[..i], NotSupported)
    {
      SnocPrefix(states, i);
      if states[i] == Omitted {
        omittedNow := omittedNow + 1;
        charged := Mark(charged.(omitted := charged.omitted + 1), Incomplete, RequiredFieldOmitted);
      } else if states[i] == NotSupported {
        unsupportedNow := unsupportedNow + 1;
        charged := Mark(charged.(unsupportedFields := charged.unsupportedFields + 1), Unsupported,
                        RequiredFieldUnsupported);
      }
    }
    assert states[..|states|] == states;
  }

  // The mutable state of one accounting call.
  class Books {
    var totals: Totals
    var boundaries: map<string, Boundary>
    var calls: map<string, Call>
    var order: seq<string>
    var seen: set<int>
    var issues: seq<Code>

    ghost function View(): Ledger
      reads this
    {
      Ledger(totals, boundaries, calls, order, seen, issues)
    }

    constructor (supported: set<string>, unsupported: set<string>)
      ensures View() == Begin(Declared(supported, unsupported))
    {
      totals, calls, order, seen, issues := NO_TOTALS, map[], [], {}, [];
      boundaries := (map n | n in supported :: NEW_BOUNDARY)
                    + (map n | n in unsupported :: Boundary(Unsupported, 0, 0, 0, 0, 0, [UnsupportedBoundary]));
    }

    method AddIssue(code: Code)
      modifies this`issues
      ensures issues == AddNew(old(issues), code)
    {
      if code !in issues {
        issues := issues + [code];
      }
    }

    static method Marked(before: Boundary, status: Status, code: Code) returns (b: Boundary)
      ensures b == Mark(before, status, code)
    {
      b := before;
      if Priority(status) > Priority(b.status) {
        b := b.(status := status);
      }
      if code !in b.issues {
        b := b.(issues := b.issues + [code]);
      }
    }

    // `_set_boundary_status` on a boundary that exists
    method SetStatus(name: string, status: Status, code: Code)
      requires name in boundaries
      modifies this`boundaries
      ensures boundaries == old(boundaries)[name := Mark(old(boundaries)[name], status, code)]
    {
      var b := Marked(boundaries[name], status, code);
      boundaries := boundaries[name := b];
    }

    method Malformed()
      modifies this
      ensures View() == old(View()).(
                totals := old(totals).(malformed := old(totals).malformed + 1),
                issues := AddNew(old(issues), MalformedObservation))
    {
      totals := totals.(malformed := totals.malformed + 1);
      AddIssue(MalformedObservation);
    }

    // One turn of the loop over the stream.
    method Observe(item: Item, declared: Declared)
      modifies this
      ensures View() == Step(old(View()), item, declared)
    {
      if item.NotAMapping? || item.kind.None? || item.sequence.None? || item.sequence.value < 0
         || !ValidName(item.id) || !ValidName(item.boundary) || item.fields.None? {
        Malformed();
        return;
      }
      var states := ReadStates(item.fields.value);
      if states.None? {
        Malformed();
        return;
      }
      Enter(Entry(item.kind.value, item.sequence.value, item.id.value, item.boundary.value, states.value),
            declared);
    }

    // `boundaries.setdefault`, and the mark an undeclared boundary gets each time it is reached.
    method Find(name: string, declared: Declared)
      modifies this`boundaries
      ensures boundaries == old(boundaries)[name := Reach(old(boundaries), name, declared)]
    {
      if name !in boundaries {
        boundaries := boundaries[name := NEW_BOUNDARY];
      }
      if name !in declared.supported && name !in declared.unsupported {
        SetStatus(name, Unsupported, UndeclaredBoundary);
      }
    }

    method ChargeFields(e: Entry)
      requires e.boundary in boundaries
      modifies this`boundaries, this`totals
      ensures boundaries == old(boundaries)[e.boundary := Charge(old(boundaries)[e.boundary], e.states)]
      ensures totals == old(totals).(
                omitted := old(totals).omitted + CountOf(e.states, Omitted),
                unsupportedFields := old(totals).unsupportedFields + CountOf(e.states, NotSupported))
    {
      var charged, omitted, unsupportedFields :=
        ChargeStates(boundaries[e.boundary], totals.omitted, totals.unsupportedFields, e.states);
      boundaries := boundaries[e.boundary := charged];
      totals := totals.(omitted := omitted, unsupportedFields := unsupportedFields);
    }

    method Enter(e: Entry, declared: Declared)
      modifies this
      ensures View() == Post(old(View()), e, declared)
    {
      Find(e.boundary, declared);
      ghost var b := boundaries[e.boundary];
      if e.sequence in seen {
        EnterDuplicate(e);
        PostDuplicateFrame(old(View()), e, b);
      } else {
        EnterNew(e);
        PostNewFrame(old(View()), e, b);
      }
    }

    method EnterDuplicate(e: Entry)
      requires e.boundary in boundaries
      modifies this
      ensures View() == PostDuplicate(old(View()), e, old(boundaries)[e.boundary])
    {
      totals := totals.(duplicateSequences := totals.duplicateSequences + 1);
      AddIssue(DuplicateSequence);
      SetStatus(e.boundary, Invalid, DuplicateSequence);
    }

    method EnterNew(e: Entry)
      requires e.boundary in boundaries
      modifies this
      ensures View() == PostNew(old(View()), e, old(boundaries)[e.boundary])
    {
      seen := seen + {e.sequence};
      ChargeFields(e);
      if e.kind.Start? {
        EnterStart(e);
      } else {
        EnterTerminal(e);
      }
    }

    method EnterStart(e: Entry)
      requires e.boundary in boundaries
      modifies this
      ensures View() == PostStart(old(View()), e, old(boundaries)[e.boundary])
    {
      if e.id in calls {
        totals := totals.(duplicateInvocations := totals.duplicateInvocations + 1);
        AddIssue(DuplicateInvocation);
        SetStatus(e.boundary, Invalid, DuplicateInvocation);
        return;
      }
      calls := calls[e.id := Call(e.boundary, e.sequence, None)];
      order := order + [e.id];
      totals := totals.(starts := totals.starts + 1);
      var b := boundaries[e.boundary];
      boundaries := boundaries[e.boundary := b.(starts := b.starts + 1)];
    }

    method EnterTerminal(e: Entry)
      requires e.boundary in boundaries
      modifies this
      ensures View() == PostTerminal(old(View()), e, old(boundaries)[e.boundary])
    {
      if e.id !in calls {
        totals := totals.(ambiguous := totals.ambiguous + 1);
        AddIssue(AmbiguousInvocation);
        SetStatus(e.boundary, Invalid, TerminalWithoutStart);
        return;
      }
      var call := calls[e.id];
      if call.boundary != e.boundary || call.terminal.Some? || e.sequence <= call.start {
        totals := totals.(ambiguous := totals.ambiguous + 1);
        AddIssue(AmbiguousInvocation);
        SetStatus(e.boundary, Invalid, AmbiguousTerminal);
        if call.boundary !in boundaries {
          boundaries := boundaries[call.boundary := NEW_BOUNDARY];
        }
        SetStatus(call.boundary, Invalid, AmbiguousTerminal);
        return;
      }
      calls := calls[e.id := call.(terminal := Some(e.sequence))];
      totals := totals.(terminals := totals.terminals + 1);
      var b := boundaries[e.boundary];
      boundaries := boundaries[e.boundary := b.(terminals := b.terminals + 1)];
    }

    method SettleCall(id: string)
      modifies this`totals, this`boundaries
      ensures View() == SettleOne(old(View()), id)
    {
      if id in calls && calls[id].terminal.None? {
        var n := calls[id].boundary;
        totals := totals.(missing := totals.missing + 1);
        var b := if n in boundaries then boundaries[n] else NEW_BOUNDARY;
        boundaries := boundaries[n := b.(missing := b.missing + 1)];
        SetStatus(n, Incomplete, MissingTerminal);
      }
    }

    // The loop over `calls.values()`.
    method SettleCalls()
      modifies this
      ensures View() == Settle(old(View()), old(order))
    {
      ghost var start := View();
      for i := 0 to |order|
        invariant order == start.order && calls == start.calls
        invariant View() == Settle(start, order[..i])
      {
        SnocPrefix(order, i);
        SettleCall(order[i]);
      }
      assert order[..|order|] == order;
    }

    method ListEnvironmentIssues(env: Environment)
      modifies this`issues
      ensures issues == EnvironmentIssues(old(issues), env)
    {
      if !env.closed { AddIssue(ObservationNotClosed); }
      if env.observerFailures != 0 { AddIssue(ObserverFailure); }
      if env.callbackFailures != 0 { AddIssue(CallbackFailure); }
      if env.losses != 0 { AddIssue(ObservationLoss); }
      if env.process == Some(TimedOut) {
        AddIssue(RuntimeTimeout);
      } else if env.process == Some(Interrupted) {
        AddIssue(ProcessInterrupted);
      }
    }

    method ListLedgerIssues(declared: Declared)
      modifies this`issues
      ensures issues == LedgerIssues(old(issues), old(View()), declared)
    {
      if totals.missing != 0 { AddIssue(MissingTerminal); }
      if totals.omitted != 0 { AddIssue(RequiredFieldOmitted); }
      if totals.unsupportedFields != 0 { AddIssue(RequiredFieldUnsupported); }
      if declared.unsupported != {} { AddIssue(UnsupportedBoundary); }
      if boundaries.Keys - declared.supported - declared.unsupported != {} { AddIssue(UndeclaredBoundary); }
    }

    // The loop over `boundaries.values()` after the global issues are known.
    method SealBoundaries(invalid: bool, incomplete: bool)
      modifies this`boundaries
      ensures boundaries == map n | n in old(boundaries) :: Seal(old(boundaries)[n], invalid, incomplete)
    {
      ghost var start := boundaries;
      var todo := boundaries.Keys;
      while todo != {}
        invariant todo <= start.Keys && boundaries.Keys == start.Keys
        invariant forall n :: n in start ==>
          boundaries[n] == if n in todo then start[n] else Seal(start[n], invalid, incomplete)
        decreases |todo|
      {
        var n :| n in todo;
        if invalid {
          SetStatus(n, Invalid, GlobalInvalidCapture);
        } else if incomplete {
          SetStatus(n, Incomplete, GlobalIncompleteCapture);
        }
        todo := todo - {n};
      }
    }
  }

  // Storing the boundary before the event is posted changes nothing: posting overwrites it.
  lemma PostDuplicateFrame(l: Ledger, e: Entry, b: Boundary)
    ensures PostDuplicate(l.(boundaries := l.boundaries[e.boundary := b]), e, b) == PostDuplicate(l, e, b)
  {}

  lemma PostNewFrame(l: Ledger, e: Entry, b: Boundary)
    ensures PostNew(l.(boundaries := l.boundaries[e.boundary := b]), e, b) == PostNew(l, e, b)
  {
    var charged := Charge(b, e.states);
    assert l.boundaries[e.boundary := b][e.boundary := charged] == l.boundaries[e.boundary := charged];
  }

  method AccountRuntimeEvidence(
      stream: seq<Item>, supportedNames: seq<Option<string>>, unsupportedNames: seq<Option<string>>,
      env: Environment)
    returns (account: Account)
    ensures account == AccountFor(stream, supportedNames, unsupportedNames, env)
  {
    hide Step, Settle, Overall, SomeInvalid, SomeIncomplete;
    if env.observerFailures < 0 || env.callbackFailures < 0 || env.losses < 0 || env.process.None? {
      return REJECTED;
    }
    var supported := CollectNames(supportedNames);
    if supported.None? {
      return REJECTED;
    }
    var unsupported := CollectNames(unsupportedNames);
    if unsupported.None? {
      return REJECTED;
    }
    OverlapIsRejected(supportedNames, unsupportedNames);
    if supported.value * unsupported.value != {} {
      return REJECTED;
    }
    var declared := Declared(supported.value, unsupported.value);
    var books := new Books(supported.value, unsupported.value);
    for i := 0 to |stream|
      invariant books.View() == Run(stream[..i], declared)
    {
      SnocPrefix(stream, i);
      books.Observe(stream[i], declared);
    }
    assert stream[..|stream|] == stream;
    ghost var l := books.View();
    books.SettleCalls();
    ghost var settled := books.View();

    books.ListEnvironmentIssues(env);
    books.ListLedgerIssues(declared);
    var invalid := SomeInvalid(books.issues);
    var incomplete := SomeIncomplete(books.issues);
    books.SealBoundaries(invalid, incomplete);
    return Account(Overall(books.boundaries, invalid, incomplete), books.issues, books.totals, books.boundaries);
  }

  lemma OverlapIsRejected(supported: seq<Option<string>>, unsupported: seq<Option<string>>)
    requires forall i :: 0 <= i < |supported| ==> ValidName(supported[i])
    requires forall i :: 0 <= i < |unsupported| ==> ValidName(unsupported[i])
    ensures ValidDeclaration(supported, unsupported) <==> Names(supported) * Names(unsupported) == {}
  {
    if Names(supported) * Names(unsupported) != {} {
      var n :| n in Names(supported) * Names(unsupported);
      var i :| 0 <= i < |supported| && supported[i] == Some(n);
      var j :| 0 <= j < |unsupported| && unsupported[j] == Some(n);
    } else {
      forall i, j | 0 <= i < |supported| && 0 <= j < |unsupported| ensures supported[i] != unsupported[j] {
        assert supported[i].value in Names(supported) && unsupported[j].value in Names(unsupported);
        assert supported[i].value !in Names(supported) * Names(unsupported);
      }
    }
  }
}
