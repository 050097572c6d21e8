// The builder and the validator as the loops they are, proved to compute `Build` and `Valid`.

module BuilderLoop {
  import opened Wrappers
  import opened Sequences
  import opened Vocabulary
  import opened Records
  import opened Evidence
  import opened Accounting
  import opened AccountingLoop
  import opened Validator
  import opened ValidatorLoop
  import opened Builder

  method TakeAll(c: Capture) returns (t: Intake)
    ensures t == Take(c.issues, c.records)
  {
    var invalid := false;
    var losses: seq<Code> := [];
    for i := 0 to |c.issues|
      invariant losses == Dedupe(c.issues[..i])
      invariant invalid <==> exists x :: x in c.issues[..i] && InvalidCapture(x)
    {
      SnocPrefix(c.issues, i);
      if c.issues[i] !in losses {
        losses := losses + [c.issues[i]];
      }
      invalid := invalid || InvalidCapture(c.issues[i]);
    }
    assert c.issues[..|c.issues|] == c.issues;

    var starts: map<string, Record> := map[];
    var order: seq<string> := [];
    var terminals: map<string, Record> := map[];
    var seen: set<int> := {};
    for i := 0 to |c.records|
      invariant Intake(starts, order, terminals, seen, invalid, losses) == Take(c.issues, c.records[..i])
    {
      SnocPrefix(c.records, i);
      var r := c.records[i];
      if r.id.None? || r.id.value == "" || r.sequence < 0 {
        invalid := true;
        continue;
      }
      if r.sequence in seen {
        invalid := true;
        if DuplicateSequence !in losses {
          losses := losses + [DuplicateSequence];
        }
        continue;
      }
      seen := seen + {r.sequence};
      if IsStart(r.kind) && r.id.value !in starts {
        starts := starts[r.id.value := r];
        order := order + [r.id.value];
      } else if IsTerminal(r.kind) && r.id.value !in terminals {
        terminals := terminals[r.id.value := r];
      } else {
        invalid := true;
      }
    }
    assert c.records[..|c.records|] == c.records;
    return Intake(starts, order, terminals, seen, invalid, losses);
  }

  // The terminal of a start, unless it is of another call.
  method Screen(start: Record, terminal: Option<Record>) returns (kept: Option<Record>, events: seq<Item>)
    ensures kept == if terminal.Some? && EarlyFault(start, terminal.value) then None else terminal
    ensures events == MarkWhen(terminal.Some? && EarlyFault(start, terminal.value))
  {
    hide SameIdentity, ExpectedLabel;
    kept, events := terminal, [];
    if terminal.Some? {
      var found := terminal.value;
      if found.kind != (if start.kind.NativeStart? then NativeTerminal else CodeTerminal) {
        kept, events := None, [MARKER];
      } else if found.tool != start.tool || !SameIdentity(found, start) {
        kept, events := None, [MARKER];
      } else if found.boundary != ExpectedLabel(start, found.outcome) {
        kept, events := None, [MARKER];
      }
    }
  }

  // The observation of a start and its terminal, with the accounting events of both.
  method Close(id: string, start: Record, terminal: Option<Record>, guard: Guard)
    returns (events: seq<Item>, o: Observation)
    requires terminal.Some? ==> !EarlyFault(start, terminal.value)
    ensures o == Observe(id, start, terminal, guard)
    ensures events == Items(o) + MarkWhen(terminal.Some? && LateFault(start, terminal.value))
  {
    hide EarlyFault, TerminalItem, IdentityField, Project, ParentOf;
    o := Observe(id, start, None, guard);
    events := [StartItem(o)];
    if terminal.Some? && terminal.value.sequence > start.sequence {
      var found := terminal.value;
      if found.outcome.OtherOutcome? {
        events := events + [MARKER];
      } else {
        var success := found.outcome.Succeeded?;
        var final := Withheld(NotSupported, FINALITY_REASON);
        o := o.(outcome := if success then Outcome.Success else Error, terminal := At(found.sequence),
                result := if !success then Withheld(Omitted, NOT_APPLICABLE)
                          else if o.mode.CodeMode? then final else Project(found.result, guard),
                error := if success then Withheld(Omitted, NOT_APPLICABLE)
                         else if o.mode.CodeMode? then final else Project(found.error, guard));
        events := events + [TerminalItem(o)];
      }
    } else if terminal.Some? {
      events := events + [MARKER];
    }
  }

  // A terminal of another call is as good as none.
  lemma ScreenedObservation(id: string, start: Record, terminal: Record, guard: Guard)
    requires EarlyFault(start, terminal)
    ensures Observe(id, start, Some(terminal), guard) == Observe(id, start, None, guard)
  {}

  // One turn of the loop over the sorted starts: the events appended and the observation published.
  method ObserveOne(id: string, t: Intake, guard: Guard) returns (events: seq<Item>, o: Observation)
    requires id in t.starts
    ensures events == EventsOf(id, t, guard)
    ensures o == Observe(id, t.starts[id], Lookup(t.terminals, id), guard)
  {
    hide ParentObserved, EarlyFault, LateFault, Items, Observe;
    var start := t.starts[id];
    var terminal := Lookup(t.terminals, id);
    events := [];
    if start.kind.CodeStart? && !ParentObserved(start, t.starts) {
      events := events + [MARKER];
    }
    if terminal.Some? && EarlyFault(start, terminal.value) { ScreenedObservation(id, start, terminal.value, guard); }
    var kept, marks := Screen(start, terminal);
    var more: seq<Item>;
    more, o := Close(id, start, kept, guard);
    events := events + marks + more;
  }

  // The loop over the starts in order of their sequence.
  method ObserveAll(ids: seq<string>, t: Intake, guard: Guard)
    returns (events: seq<Item>, os: seq<Observation>, terminals: nat)
    requires forall x :: x in ids ==> x in t.starts
    ensures events == EventsFor(ids, t, guard)
    ensures os == ObservationsOf(ids, t, guard) && terminals == TerminalCount(os)
  {
    hide EventsOf, Observe;
    events, os, terminals := [], [], 0;
    for i := 0 to |ids|
      invariant os == ObservationsOf(ids[..i], t, guard)
      invariant events == EventsFor(ids[..i], t, guard)
      invariant terminals == TerminalCount(os)
    {
      SnocPrefix(ids, i);
      assert ids[i] in ids;
      var more, o := ObserveOne(ids[i], t, guard);
      assert (os + [o])[..|os|] == os;
      events := events + more;
      os := os + [o];
      if !o.outcome.Missing? {
        terminals := terminals + 1;
      }
      assert os == ObservationsOf(ids[..i + 1], t, guard);
    }
    assert ids[..|ids|] == ids;
  }

  method BuildRuntimeEvidence(c: Capture, guard: Guard, process: ProcessState)
    returns (r: Result<RuntimeEvidence, ()>)
    ensures r == if Valid(Build(c, guard, process)) then Result.Success(Build(c, guard, process)) else Failure(())
  {
    hide AccountFor, Valid, Build, EventsFor, ObservationsOf, Take, Sorted, TerminalCount;
    var t := TakeAll(c);
    TakeIndexed(c.issues, c.records);
    var ids := Sorted(t.order, t.starts);
    assert ids == Ids(c);
    var observed, os, terminals := ObserveAll(ids, t, guard);
    var events := (if t.invalid then [MARKER] else []) + observed;
    if exists id :: id in t.terminals && id !in t.starts {
      events := events + [MARKER];
    }
    assert events == AccountingEvents(c, guard);
    var a := AccountRuntimeEvidence(
      events, SUPPORTED, UNSUPPORTED,
      Environment(c.ended, OrZero(Failures(c, c.observerFailures)), OrZero(Failures(c, c.callbackFailures)),
                  IncompleteCount(LossCodes(c)), Some(Effective(process))));
    var e := Publish(c, guard, process, a, os, terminals);
    var valid := ValidateRuntimeEvidence(e);
    return if valid then Result.Success(e) else Failure(());
  }

  method Publish(c: Capture, guard: Guard, process: ProcessState, a: Account, os: seq<Observation>, terminals: nat)
    returns (e: RuntimeEvidence)
    requires a == BuilderAccount(c, guard, process)
    requires os == ObservationsOf(Ids(c), Take(c.issues, c.records), guard) && terminals == TerminalCount(os)
    ensures e == Build(c, guard, process)
  {
    hide BuilderAccount, ObservationsOf, Ids, Take, TerminalCount;
    var native := PublicBoundaryOf(BoundaryIn(a, NATIVE), c.started);
    var code := PublicBoundaryOf(BoundaryIn(a, CODE_EXECUTION), c.started);
    e := RuntimeEvidence(
      a.status, a.status.Complete?, os,
      Coverage(
        ClosedIs(c.ended), Effective(process),
        PublicCount(if c.started then Some(|os|) else None, MISSING_CAPTURE),
        PublicCount(if c.started then Some(terminals) else None, MISSING_CAPTURE),
        PublicCount(if c.started then Some(|os| - terminals) else None, MISSING_CAPTURE),
        PublicCount(Failures(c, c.observerFailures), OBSERVATION_NOT_CLOSED),
        PublicCount(Failures(c, c.callbackFailures), OBSERVATION_NOT_CLOSED),
        PublicLosses(c, a), Limits(native, code),
        map[NATIVE := native, CODE_EXECUTION := code,
            CODE_FINALITY := UnsupportedBoundaryFor(FINALITY_REASON, CodeModeFinality)]));
  }
}

module ValidatorLoop {
  import opened Wrappers
  import opened Sequences
  import opened Vocabulary
  import opened Evidence
  import opened Accounting
  import opened AccountingLoop
  import opened Validator

  // What the loop has collected about the observations it has passed: by id, and every sequence.
  ghost predicate PassedIds(os: seq<Observation>, ids: map<string, Observation>) {
    && (forall id :: id in ids <==> exists k :: 0 <= k < |os| && os[k].id == id)
    && (forall k :: 0 <= k < |os| ==> ids[os[k].id] == os[k])
  }

  predicate Bears(o: Observation, s: int) {
    o.start == s || (o.terminal.At? && o.terminal.sequence == s)
  }

  ghost predicate PassedSequences(os: seq<Observation>, sequences: set<int>, previous: int) {
    && (forall k :: 0 <= k < |os| ==> os[k].start <= previous)
    && (forall k, s :: 0 <= k < |os| && Bears(os[k], s) ==> s in sequences)
    && (forall s :: s in sequences ==> exists k :: 0 <= k < |os| && Bears(os[k], s))
    && (if os == [] then previous == -1 else previous == os[|os| - 1].start)
  }

  ghost predicate Passed(os: seq<Observation>, ids: map<string, Observation>, sequences: set<int>, previous: int) {
    PassedIds(os, ids) && PassedSequences(os, sequences, previous)
  }

  // One turn of the loop: whether the next observation is accepted after the ones already passed.
  method CheckObservation(o: Observation, status: Status, ids: map<string, Observation>, sequences: set<int>,
                          previous: int, ghost os: seq<Observation>)
    returns (ok: bool)
    requires Passed(os, ids, sequences, previous)
    ensures ok <==> ValidShape(o) && Follows(os, o, status)
  {
    hide NonBlank;
    if !ValidShape(o) {
      return false;
    }
    if o.id in ids {
      return false;
    }
    if o.mode.CodeMode? && !status.Invalid? {
      if !(o.parent.ParentIs? && o.parent.kind.Invocation?) || o.parent.id !in ids
         || !OuterOf(ids[o.parent.id], o) {
        return false;
      }
    }
    if o.start <= previous || o.start in sequences {
      return false;
    }
    if o.terminal.At? && o.terminal.sequence in sequences {
      return false;
    }
    return true;
  }

  lemma PassOne(os: seq<Observation>, o: Observation, status: Status, ids: map<string, Observation>,
                sequences: set<int>, previous: int)
    requires Passed(os, ids, sequences, previous) && ValidShape(o) && Follows(os, o, status)
    ensures Passed(os + [o], ids[o.id := o],
                   sequences + {o.start} + (if o.terminal.At? then {o.terminal.sequence} else {}), o.start)
  {
    hide NonBlank, ParentEstablished, ValidShape, PassedIds, PassedSequences;
    PassId(os, o, ids);
    PassSequences(os, o, sequences, previous);
  }

  lemma PassId(os: seq<Observation>, o: Observation, ids: map<string, Observation>)
    requires PassedIds(os, ids) && forall k :: 0 <= k < |os| ==> os[k].id != o.id
    ensures PassedIds(os + [o], ids[o.id := o])
  {
    var all, updated := os + [o], ids[o.id := o];
    assert all[|os|] == o && forall k :: 0 <= k < |os| ==> all[k] == os[k];
    forall id | id in updated ensures exists k :: 0 <= k < |all| && all[k].id == id {
      if id in ids {
        var k :| 0 <= k < |os| && os[k].id == id;
        assert all[k].id == id;
      } else {
        assert all[|os|].id == id;
      }
    }
  }

  lemma PassSequences(os: seq<Observation>, o: Observation, sequences: set<int>, previous: int)
    requires PassedSequences(os, sequences, previous) && forall k :: 0 <= k < |os| ==> os[k].start < o.start
    ensures PassedSequences(os + [o], sequences + {o.start} + (if o.terminal.At? then {o.terminal.sequence} else {}),
                            o.start)
  {
    var all := os + [o];
    var more := sequences + {o.start} + (if o.terminal.At? then {o.terminal.sequence} else {});
    assert all[|os|] == o && forall k :: 0 <= k < |os| ==> all[k] == os[k];
    forall s | s in more ensures exists k :: 0 <= k < |all| && Bears(all[k], s) {
      if s in sequences {
        var k :| 0 <= k < |os| && Bears(os[k], s);
        assert Bears(all[k], s);
      } else {
        assert Bears(all[|os|], s);
      }
    }
  }

  lemma PassedNone()
    ensures Passed([], map[], {}, -1)
  {}

  // The loop over the observations: accepted or not, and what it leaves for the accounting.
  method CheckObservations(os: seq<Observation>, status: Status)
    returns (ok: bool, terminals: nat, rebuilt: seq<Item>)
    ensures ok <==> ValidObservations(os, status)
    ensures ok ==> terminals == TerminalCount(os) && rebuilt == Reconstruct(os)
  {
    hide ValidShape, Follows, Passed, Items;
    PassedNone();
    var ids: map<string, Observation> := map[];
    var sequences: set<int> := {};
    var previous := -1;
    terminals, rebuilt := 0, [];
    for i := 0 to |os|
      invariant forall j :: 0 <= j < i ==> ValidShape(os[j]) && Follows(os[..j], os[j], status)
      invariant Passed(os[..i], ids, sequences, previous)
      invariant terminals == TerminalCount(os[..i]) && rebuilt == Reconstruct(os[..i])
    {
      var o := os[i];
      var accepted := CheckObservation(o, status, ids, sequences, previous, os[..i]);
      if !accepted {
        return false, 0, [];
      }
      PassOne(os[..i], o, status, ids, sequences, previous);
      SnocPrefix(os, i);
      ghost var before := sequences;
      ids := ids[o.id := o];
      previous := o.start;
      sequences := sequences + {o.start};
      if o.terminal.At? {
        sequences := sequences + {o.terminal.sequence};
      }
      assert sequences == before + {o.start} + (if o.terminal.At? then {o.terminal.sequence} else {});
      terminals, rebuilt := Tally(o, terminals, rebuilt);
    }
    assert os[..|os|] == os;
    ok := true;
  }

  method Tally(o: Observation, terminals: nat, rebuilt: seq<Item>) returns (count: nat, items: seq<Item>)
    ensures count == terminals + if o.outcome.Missing? then 0 else 1
    ensures items == rebuilt + Items(o)
  {
    items := rebuilt + [StartItem(o)];
    count := terminals;
    if !o.outcome.Missing? {
      count := count + 1;
      if o.terminal.At? {
        items := items + [TerminalItem(o)];
      }
    }
  }

  method ValidateRuntimeEvidence(e: RuntimeEvidence) returns (ok: bool)
    ensures ok <==> Valid(e)
  {
    hide ValidHeader, ValidWithoutTransport, ValidTotals, ValidObservations, AgreesWithAccounting;
    if !ValidHeader(e) {
      return false;
    }
    if e.coverage.process.NoTransport? {
      return ValidWithoutTransport(e);
    }
    if !ValidTotals(e) {
      return false;
    }
    var c := e.coverage;
    var accepted, terminals, rebuilt := CheckObservations(e.observations, e.status);
    if !accepted {
      return false;
    }
    if c.starts.Count? && c.terminals.Count? && c.missing.Count? {
      if c.starts.n != |e.observations| || c.terminals.n != terminals {
        return false;
      }
    }
    if CODE_FINALITY !in c.boundaries || !c.boundaries[CODE_FINALITY].status.Unsupported?
       || CodeModeFinality !in c.unsupported {
      return false;
    }
    ok := CheckAccounting(e, rebuilt);
  }

  method CheckAccounting(e: RuntimeEvidence, rebuilt: seq<Item>) returns (ok: bool)
    requires rebuilt == Reconstruct(e.observations)
    ensures ok <==> AgreesWithAccounting(e)
  {
    hide AccountFor;
    var c := e.coverage;
    var events := rebuilt;
    var losses := 0;
    var invalid := false;
    for i := 0 to |c.losses|
      invariant losses == LossCount(c.losses[..i])
      invariant invalid <==> exists x :: x in c.losses[..i] && InvalidCapture(x)
    {
      SnocPrefix(c.losses, i);
      if CaptureLoss(c.losses[i]) {
        losses := losses + 1;
      }
      invalid := invalid || InvalidCapture(c.losses[i]);
    }
    assert c.losses[..|c.losses|] == c.losses;
    if invalid {
      events := events + [MARKER];
    }
    assert events == Reconstruct(e.observations) + (if SomeInvalidLoss(c.losses) then [MARKER] else []);
    var a := AccountRuntimeEvidence(
      events, SUPPORTED, UNSUPPORTED,
      Environment(c.closed.ClosedIs? && c.closed.closed, PublicFailures(c.observerFailures),
                  PublicFailures(c.callbackFailures), losses, Some(c.process)));
    assert a == Reaccounted(e);
    ok := e.status == a.status && e.eligible == a.Eligible();
    if ok {
      ok := && NATIVE in c.boundaries && NATIVE in a.boundaries
            && c.boundaries[NATIVE].status == a.boundaries[NATIVE].status
            && CODE_EXECUTION in c.boundaries && CODE_EXECUTION in a.boundaries
            && c.boundaries[CODE_EXECUTION].status == a.boundaries[CODE_EXECUTION].status;
    }
  }
}
