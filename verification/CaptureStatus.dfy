// When the evidence built from a capture is complete, on the capture itself.

module CaptureStatus {
  import opened Vocabulary
  import opened Records
  import opened Evidence
  import opened Accounting
  import opened AccountingSpec
  import opened Validator
  import opened Builder
  import opened IntakeFacts
  import opened Events
  import opened Agreement

  lemma {:induction false} EntriesMembers(os: seq<Observation>)
    requires (forall i :: 0 <= i < |os| ==> Ordered(os[i])) && ShortIds(os)
    ensures WellFormed(Reconstruct(os))
    ensures forall e :: e in Entries(Reconstruct(os)) <==>
              exists i :: 0 <= i < |os| && e in EntriesFrom(os[i])
  {
    ReconstructWellFormed(os);
    if os == [] {
      assert Entries(Reconstruct(os)) == [];
    } else {
      var front, o := os[..|os| - 1], os[|os| - 1];
      EntriesMembers(front);
      ItemsDecode(o);
      WellFormedConcat(Reconstruct(front), Items(o));
      forall e | exists i :: 0 <= i < |os| && e in EntriesFrom(os[i])
        ensures e in Entries(Reconstruct(os))
      {
        var i :| 0 <= i < |os| && e in EntriesFrom(os[i]);
        if i < |front| { assert e in EntriesFrom(front[i]); }
      }
      forall e | e in Entries(Reconstruct(os))
        ensures exists i :: 0 <= i < |os| && e in EntriesFrom(os[i])
      {
        if e in Entries(Reconstruct(front)) {
          var i :| 0 <= i < |front| && e in EntriesFrom(front[i]);
          assert e in EntriesFrom(os[i]);
        }
      }
    }
  }

  // A required field of the observation is published as omitted.
  predicate HasOmission(o: Observation) {
    Omitted in StartStates(o) || (o.terminal.At? && Omitted in TerminalStates(o))
  }

  ghost predicate Rebuilt(os: seq<Observation>) {
    AllApart(os) && ShortIds(os) && WellFormed(Reconstruct(os))
  }

  lemma StartIn(os: seq<Observation>, i: nat) returns (k: nat)
    requires Rebuilt(os) && i < |os|
    ensures k < |Entries(Reconstruct(os))| && Entries(Reconstruct(os))[k] == StartEntry(os[i])
  {
    EntriesMembers(os);
    assert StartEntry(os[i]) in EntriesFrom(os[i]) && StartEntry(os[i]) in Entries(Reconstruct(os));
    k :| 0 <= k < |Entries(Reconstruct(os))| && Entries(Reconstruct(os))[k] == StartEntry(os[i]);
  }

  lemma TerminalIn(os: seq<Observation>, i: nat) returns (k: nat)
    requires Rebuilt(os) && i < |os| && os[i].terminal.At?
    ensures k < |Entries(Reconstruct(os))| && Entries(Reconstruct(os))[k] == TerminalEntry(os[i])
  {
    EntriesMembers(os);
    assert EntriesFrom(os[i])[1] == TerminalEntry(os[i]);
    assert TerminalEntry(os[i]) in EntriesFrom(os[i]) && TerminalEntry(os[i]) in Entries(Reconstruct(os));
    k :| 0 <= k < |Entries(Reconstruct(os))| && Entries(Reconstruct(os))[k] == TerminalEntry(os[i]);
  }

  lemma SourceOf(os: seq<Observation>, k: nat) returns (i: nat)
    requires Rebuilt(os) && k < |Entries(Reconstruct(os))|
    ensures i < |os| && Ordered(os[i])
    ensures var e := Entries(Reconstruct(os))[k];
            e == StartEntry(os[i]) || (os[i].terminal.At? && e == TerminalEntry(os[i]))
  {
    EntriesMembers(os);
    assert Entries(Reconstruct(os))[k] in Entries(Reconstruct(os));
    i :| 0 <= i < |os| && Entries(Reconstruct(os))[k] in EntriesFrom(os[i]);
  }

  lemma OmissionsAre(os: seq<Observation>)
    requires Rebuilt(os)
    ensures SomeFieldOmitted(Entries(Reconstruct(os))) <==> exists i :: 0 <= i < |os| && HasOmission(os[i])
  {
    hide Reconstruct, Entries, StartStates, TerminalStates;
    var es := Entries(Reconstruct(os));
    if SomeFieldOmitted(es) {
      var k :| 0 <= k < |es| && Omitted in es[k].states;
      var i := SourceOf(os, k);
      assert HasOmission(os[i]);
    }
    if i :| 0 <= i < |os| && HasOmission(os[i]) {
      var k := StartIn(os, i);
      if os[i].terminal.At? { var m := TerminalIn(os, i); }
    }
  }

  lemma UnclosedAre(os: seq<Observation>)
    requires Rebuilt(os)
    ensures SomeStartUnclosed(Entries(Reconstruct(os))) <==> exists i :: 0 <= i < |os| && os[i].outcome.Missing?
  {
    hide Reconstruct, Entries, StartStates, TerminalStates;
    var es := Entries(Reconstruct(os));
    if SomeStartUnclosed(es) {
      var k :| 0 <= k < |es| && es[k].kind.Start? && !Closed(es, es[k].id);
      var i := SourceOf(os, k);
      if !os[i].outcome.Missing? { var m := TerminalIn(os, i); }
    }
    if i :| 0 <= i < |os| && os[i].outcome.Missing? {
      var k := StartIn(os, i);
      if Closed(es, os[i].id) {
        var m :| 0 <= m < |es| && es[m].kind.Terminal? && es[m].id == os[i].id;
        var j := SourceOf(os, m);
        assert j != i && os[j].id == os[i].id;
      }
    }
  }

  lemma NothingUnsupported(c: Capture, guard: Guard)
    requires Sound(c)
    ensures var os := ObservationsOf(Ids(c), Take(c.issues, c.records), guard);
            Rebuilt(os)
            && SomeBoundarySound(Entries(Reconstruct(os)), Declared(Names(SUPPORTED), Names(UNSUPPORTED)))
  {
    hide Take, Sorted, Ids, Reconstruct, Entries, StartStates, TerminalStates, Observe;
    var t := Take(c.issues, c.records);
    var ids := Ids(c);
    var os := ObservationsOf(ids, t, guard);
    TakeKeeps(c.issues, c.records);
    ObservationsApart(c, guard);
    SoundIdsAreShort(c, guard);
    EntriesMembers(os);
    FixedDeclaration();
    var es := Entries(Reconstruct(os));
    forall k | 0 <= k < |es| ensures NotSupported !in es[k].states {
      var i := SourceOf(os, k);
      assert ids[i] in ids;
      NeverUnsupported(ids[i], t, guard);
    }
    assert NATIVE in Names(SUPPORTED) && !FieldAt(es, NATIVE, NotSupported);
  }

  lemma NeverUnsupported(id: string, t: Intake, guard: Guard)
    requires Kept(t) && id in t.starts
    ensures var o := Observe(id, t.starts[id], Lookup(t.terminals, id), guard);
            NotSupported !in StartStates(o) && (o.terminal.At? ==> NotSupported !in TerminalStates(o))
  {
    var start, terminal := t.starts[id], Lookup(t.terminals, id);
    ProjectedStates(start.input, guard);
    if terminal.Some? {
      ProjectedStates(terminal.value.result, guard);
      ProjectedStates(terminal.value.error, guard);
    }
    IdentityStates(start.tool, TOOL_UNAVAILABLE);
    IdentityStates(start.agent, ACTOR_UNAVAILABLE);
    IdentityStates(start.sessionId, SESSION_UNAVAILABLE);
    IdentityStates(start.messageId, MESSAGE_UNAVAILABLE);
    IdentityStates(start.callId, CALL_UNAVAILABLE);
    assert ParentState(ParentOf(start)) != NotSupported;
  }

  lemma ProjectedStates(raw: RawField, guard: Guard)
    ensures FieldStateOf(Project(raw, guard)) != NotSupported
  {}

  lemma IdentityStates(raw: RawField, reason: string)
    ensures FieldStateOf(IdentityField(raw, reason)) != NotSupported
  {}

  lemma SoundIdsAreShort(c: Capture, guard: Guard)
    requires Sound(c)
    ensures ShortIds(ObservationsOf(Ids(c), Take(c.issues, c.records), guard))
  {
    hide Take, Sorted, Ids;
    var t := Take(c.issues, c.records);
    var ids := Ids(c);
    TakeKeeps(c.issues, c.records);
    forall i | 0 <= i < |ids| ensures Names256(ids[i]) { assert ids[i] in ids && SoundStart(ids[i], t); }
  }

  // Every retained start is paired with its terminal, and none of its required fields is omitted.
  predicate FullyObserved(c: Capture, guard: Guard) {
    var t := Take(c.issues, c.records);
    forall id :: id in t.starts ==>
      id in t.terminals && !HasOmission(Observe(id, t.starts[id], Lookup(t.terminals, id), guard))
  }

  predicate NoneLacking(os: seq<Observation>) {
    forall i :: 0 <= i < |os| ==> !os[i].outcome.Missing? && !HasOmission(os[i])
  }

  lemma FullyObservedIs(c: Capture, guard: Guard)
    requires Sound(c)
    ensures FullyObserved(c, guard) <==> NoneLacking(ObservationsOf(Ids(c), Take(c.issues, c.records), guard))
  {
    hide Take, Sorted, Ids, HasOmission, ParentObserved, EarlyFault, LateFault, Project, IdentityField;
    var t := Take(c.issues, c.records);
    var ids := Ids(c);
    var os := ObservationsOf(ids, t, guard);
    forall i | 0 <= i < |os| ensures ids[i] in t.starts && (os[i].outcome.Missing? <==> ids[i] !in t.terminals) {
      assert ids[i] in ids && SoundStart(ids[i], t);
    }
    if FullyObserved(c, guard) {
      forall i | 0 <= i < |os| ensures !os[i].outcome.Missing? && !HasOmission(os[i]) {
        assert ids[i] in t.starts;
      }
    }
    if NoneLacking(os) {
      forall id | id in t.starts
        ensures id in t.terminals && !HasOmission(Observe(id, t.starts[id], Lookup(t.terminals, id), guard))
      {
        assert id in ids;
        var k :| 0 <= k < |ids| && ids[k] == id;
        assert os[k] == Observe(id, t.starts[id], Lookup(t.terminals, id), guard);
      }
    }
  }

  lemma NoLossesIff(c: Capture)
    requires LoaderCapture(c) && Sound(c)
    ensures IncompleteCount(LossCodes(c)) == 0 <==> c.issues == []
  {
    LossCodesOf(c);
    CountsIncomplete(LossCodes(c));
    TakeLosses(c.issues, c.records);
    assert forall x :: x in LossCodes(c) ==> x in c.issues || InvalidCapture(x);
    if c.issues != [] { assert c.issues[0] in c.issues && c.issues[0] in LossCodes(c); }
  }

  // COMPLETE EVIDENCE, on the capture: closed, no failure, no issue, a finished process, no malformed marker,
  // every start paired with its terminal and every required field published.
  lemma CompleteCaptureExactly(c: Capture, guard: Guard, process: ProcessState)
    requires LoaderCapture(c)
    ensures Build(c, guard, process).status == Complete
            <==> (&& c.ended && c.issues == []
                  && OrZero(Failures(c, c.observerFailures)) == 0 && OrZero(Failures(c, c.callbackFailures)) == 0
                  && process == Completed
                  && Sound(c) && FullyObserved(c, guard))
  {
    hide AccountFor, FullyObserved, Sound, SomeFieldOmitted, SomeStartUnclosed, SomeBoundarySound, HasOmission;
    var events, env := AccountingEvents(c, guard), BuilderEnvironment(c, process);
    FixedDeclaration();
    SoundEvents(c, guard);
    InvalidIffUnsound(c, guard, process);
    assert Build(c, guard, process).status == AccountFor(events, SUPPORTED, UNSUPPORTED, env).status;
    CompleteExactly(events, SUPPORTED, UNSUPPORTED, env);
    if Sound(c) {
      var os := ObservationsOf(Ids(c), Take(c.issues, c.records), guard);
      NoLossesIff(c);
      ObservationsApart(c, guard);
      SoundIdsAreShort(c, guard);
      ReconstructOrderly(os);
      NothingUnsupported(c, guard);
      OmissionsAre(os);
      UnclosedAre(os);
      FullyObservedIs(c, guard);
    }
  }
}
