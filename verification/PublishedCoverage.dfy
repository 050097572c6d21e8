// What the coverage of the public evidence says of each boundary and of the capture: counters and codes, in terms of
// the observations beside it.

module PublishedCoverage {
  import opened Vocabulary
  import opened Evidence
  import opened Accounting
  import opened AccountingSpec
  import opened AccountingDetail
  import opened Validator
  import opened Builder
  import opened IntakeFacts
  import opened Events
  import opened Agreement
  import opened CaptureStatus
  import opened PublishedFields

  function NameOf(m: Mode): string {
    match m
    case Native => NATIVE
    case CodeMode => CODE_EXECUTION
  }

  // The observations of one mode, and those of them that ended.
  function NumberOf(os: seq<Observation>, m: Mode): nat {
    if os == [] then 0 else NumberOf(os[..|os| - 1], m) + if os[|os| - 1].mode == m then 1 else 0
  }

  function EndedOf(os: seq<Observation>, m: Mode): nat {
    if os == [] then 0
    else
      var last := os[|os| - 1];
      EndedOf(os[..|os| - 1], m) + if last.mode == m && last.outcome != Missing then 1 else 0
  }

  // ---------- the entries rebuilt from the observations ----------

  lemma {:induction false} CountConcat(a: seq<Entry>, b: seq<Entry>, n: string, kind: Kind)
    ensures CountAt(a + b, n, kind) == CountAt(a, n, kind) + CountAt(b, n, kind)
  {
    if b == [] {
      assert a + b == a;
    } else {
      assert (a + b)[..|a + b| - 1] == a + b[..|b| - 1];
      CountConcat(a, b[..|b| - 1], n, kind);
    }
  }

  lemma FewCounts(a: Entry, b: Entry, n: string, kind: Kind)
    ensures CountAt([a], n, kind) == if a.boundary == n && a.kind == kind then 1 else 0
    ensures CountAt([a, b], n, kind) == CountAt([a], n, kind) + if b.boundary == n && b.kind == kind then 1 else 0
  {
    assert [a][..0] == [] && [a, b][..1] == [a];
  }

  lemma OneCounts(o: Observation, m: Mode)
    requires Ordered(o)
    ensures CountAt(EntriesFrom(o), NameOf(m), Start) == if o.mode == m then 1 else 0
    ensures CountAt(EntriesFrom(o), NameOf(m), Terminal) == if o.mode == m && o.outcome != Missing then 1 else 0
  {
    hide CountAt;
    assert |NATIVE| == 6 && |CODE_EXECUTION| == 19;
    var a := StartEntry(o);
    var b := if o.terminal.At? then TerminalEntry(o) else a;
    assert EntriesFrom(o) == if o.terminal.At? then [a, b] else [a];
    FewCounts(a, b, NameOf(m), Start);
    FewCounts(a, b, NameOf(m), Terminal);
  }

  lemma {:induction false} EntriesCount(os: seq<Observation>, m: Mode)
    requires (forall i :: 0 <= i < |os| ==> Ordered(os[i])) && ShortIds(os)
    ensures WellFormed(Reconstruct(os))
    ensures CountAt(Entries(Reconstruct(os)), NameOf(m), Start) == NumberOf(os, m)
    ensures CountAt(Entries(Reconstruct(os)), NameOf(m), Terminal) == EndedOf(os, m)
  {
    hide EntriesFrom, CountAt, Items, Ordered;
    ReconstructWellFormed(os);
    if os == [] {
      assert Entries(Reconstruct(os)) == [];
      NothingAt([], NameOf(m));
    } else {
      var front, o := os[..|os| - 1], os[|os| - 1];
      EntriesCount(front, m);
      ItemsDecode(o);
      WellFormedConcat(Reconstruct(front), Items(o));
      CountConcat(Entries(Reconstruct(front)), EntriesFrom(o), NameOf(m), Start);
      CountConcat(Entries(Reconstruct(front)), EntriesFrom(o), NameOf(m), Terminal);
      OneCounts(o, m);
    }
  }

  lemma OmissionsAt(os: seq<Observation>, m: Mode)
    requires Rebuilt(os)
    ensures FieldAt(Entries(Reconstruct(os)), NameOf(m), Omitted)
            <==> exists i :: 0 <= i < |os| && os[i].mode == m && HasOmission(os[i])
  {
    hide Reconstruct, Entries, StartStates, TerminalStates;
    assert |NATIVE| == 6 && |CODE_EXECUTION| == 19;
    var es, n := Entries(Reconstruct(os)), NameOf(m);
    if FieldAt(es, n, Omitted) {
      var k :| 0 <= k < |es| && es[k].boundary == n && Omitted in es[k].states;
      var i := SourceOf(os, k);
      assert HasOmission(os[i]) && os[i].mode == m;
    }
    if i :| 0 <= i < |os| && os[i].mode == m && HasOmission(os[i]) {
      var k := StartIn(os, i);
      if os[i].terminal.At? { var l := TerminalIn(os, i); }
    }
  }

  lemma OpenAtMode(os: seq<Observation>, m: Mode)
    requires Rebuilt(os)
    ensures UnclosedAt(Entries(Reconstruct(os)), NameOf(m))
            <==> exists i :: 0 <= i < |os| && os[i].mode == m && os[i].outcome == Missing
  {
    hide Reconstruct, Entries, StartStates, TerminalStates;
    assert |NATIVE| == 6 && |CODE_EXECUTION| == 19;
    var es, n := Entries(Reconstruct(os)), NameOf(m);
    if UnclosedAt(es, n) {
      var k :| 0 <= k < |es| && es[k].kind.Start? && es[k].boundary == n && !Closed(es, es[k].id);
      var i := SourceOf(os, k);
      if !os[i].outcome.Missing? { var l := TerminalIn(os, i); }
      assert os[i].mode == m;
    }
    if i :| 0 <= i < |os| && os[i].mode == m && os[i].outcome == Missing {
      var k := StartIn(os, i);
      if Closed(es, os[i].id) {
        var l :| 0 <= l < |es| && es[l].kind.Terminal? && es[l].id == os[i].id;
        var j := SourceOf(os, l);
        assert j != i && os[j].id == os[i].id;
      }
    }
  }

  lemma NeverUnsupportedAt(c: Capture, guard: Guard)
    requires Sound(c)
    ensures var os := ObservationsOf(Ids(c), Take(c.issues, c.records), guard);
            Rebuilt(os) && forall n :: !FieldAt(Entries(Reconstruct(os)), n, NotSupported)
  {
    hide Take, Sorted, Ids, Reconstruct, Entries, StartStates, TerminalStates, Observe;
    var t, ids := Take(c.issues, c.records), Ids(c);
    var os := ObservationsOf(ids, t, guard);
    TakeKeeps(c.issues, c.records);
    NothingUnsupported(c, guard);
    var es := Entries(Reconstruct(os));
    forall k | 0 <= k < |es| ensures NotSupported !in es[k].states {
      var i := SourceOf(os, k);
      assert ids[i] in ids;
      NeverUnsupported(ids[i], t, guard);
    }
  }

  // ---------- a sound capture ----------

  // Something about the capture as a whole keeps the evidence from being complete.
  predicate Troubled(c: Capture, process: ProcessState) {
    || !c.ended || c.issues != [] || process != Completed
    || (c.observerFailures.Some? && c.observerFailures.value > 0)
    || (c.callbackFailures.Some? && c.callbackFailures.value > 0)
  }

  lemma TroubledIsDegraded(c: Capture, process: ProcessState)
    requires LoaderCapture(c) && Sound(c)
    ensures Degraded(BuilderEnvironment(c, process)) <==> Troubled(c, process)
  {
    hide Sound;
    NoLossesIff(c);
  }

  // A boundary of the published coverage, from the observations of its mode.
  ghost predicate TellsMode(b: PublicBoundary, os: seq<Observation>, m: Mode, started: bool, troubled: bool) {
    && Counts(b.starts, started, NumberOf(os, m), MISSING_CAPTURE)
    && Counts(b.terminals, started, EndedOf(os, m), MISSING_CAPTURE)
    && Counts(b.missing, started, NumberOf(os, m) - EndedOf(os, m), MISSING_CAPTURE)
    && (b.eligible <==> b.status == Complete)
    && forall c :: c in b.issues <==>
         || (c == RequiredFieldOmitted && exists i :: 0 <= i < |os| && os[i].mode == m && HasOmission(os[i]))
         || (c == MissingTerminal && exists i :: 0 <= i < |os| && os[i].mode == m && os[i].outcome == Missing)
         || (c == GlobalIncompleteCapture && troubled)
  }

  lemma PublicBoundaryTells(b: Boundary, started: bool)
    ensures var p := PublicBoundaryOf(b, started);
            && Counts(p.starts, started, b.starts, MISSING_CAPTURE)
            && Counts(p.terminals, started, b.terminals, MISSING_CAPTURE)
            && Counts(p.missing, started, b.missing, MISSING_CAPTURE)
            && p.status == b.status && (p.eligible <==> p.status == Complete)
            && forall c :: c in p.issues <==> c in b.issues
  {}

  lemma SoundStream(c: Capture, guard: Guard)
    requires Sound(c)
    ensures var os := ObservationsOf(Ids(c), Take(c.issues, c.records), guard);
            && AccountingEvents(c, guard) == Reconstruct(os) && Rebuilt(os)
            && WellFormed(Reconstruct(os)) && Orderly(Entries(Reconstruct(os)))
            && (forall i :: 0 <= i < |os| ==> Ordered(os[i])) && ShortIds(os)
  {
    hide Sound, Take, Ids, Observe, Reconstruct, Entries, Orderly;
    var os := ObservationsOf(Ids(c), Take(c.issues, c.records), guard);
    SoundEvents(c, guard);
    ObservationsApart(c, guard);
    SoundIdsAreShort(c, guard);
    ReconstructOrderly(os);
    NothingUnsupported(c, guard);
  }

  lemma ModeDeclared(m: Mode)
    ensures ValidDeclaration(SUPPORTED, UNSUPPORTED)
    ensures NameOf(m) in Names(SUPPORTED) && NameOf(m) !in Names(UNSUPPORTED)
  {
    FixedDeclaration();
    assert |NATIVE| == 6 && |CODE_EXECUTION| == 19 && |CODE_FINALITY| == 18;
  }

  lemma AccountTellsMode(c: Capture, guard: Guard, process: ProcessState, m: Mode)
    requires LoaderCapture(c) && Sound(c)
    ensures var a := BuilderAccount(c, guard, process);
            var os := ObservationsOf(Ids(c), Take(c.issues, c.records), guard);
            NameOf(m) in a.boundaries && TellsMode(PublicBoundaryOf(a.boundaries[NameOf(m)], c.started), os, m,
                                                   c.started, Troubled(c, process))
  {
    hide Sound, Take, Ids, Observe, Reconstruct, Entries, Orderly, WellFormed, AccountFor, ObservationsOf, CountAt,
      FieldAt, UnclosedAt, Troubled, Degraded, HasOmission, PublicBoundaryOf, AccountingEvents, Names, Rebuilt,
      ShortIds, NumberOf, EndedOf, FieldsAt;
    var os := ObservationsOf(Ids(c), Take(c.issues, c.records), guard);
    var env, n := BuilderEnvironment(c, process), NameOf(m);
    SoundStream(c, guard);
    BuilderEnvironmentIsValid(c, process);
    ModeDeclared(m);
    OrderlyBoundaries(Reconstruct(os), SUPPORTED, UNSUPPORTED, env);
    EntriesCount(os, m);
    OmissionsAt(os, m);
    OpenAtMode(os, m);
    NeverUnsupportedAt(c, guard);
    TroubledIsDegraded(c, process);
    PublicBoundaryTells(BuilderAccount(c, guard, process).boundaries[n], c.started);
  }

  // EACH BOUNDARY OF A SOUND CAPTURE counts the published observations of its mode, and names exactly what keeps it
  // from being complete.
  lemma BoundariesTellTheirMode(c: Capture, guard: Guard, process: ProcessState, m: Mode)
    requires LoaderCapture(c) && Sound(c)
    ensures var e := Build(c, guard, process);
            NameOf(m) in e.coverage.boundaries
            && TellsMode(e.coverage.boundaries[NameOf(m)], e.observations, m, c.started, Troubled(c, process))
  {
    hide Sound, Take, Ids, Observe, TellsMode, BuilderAccount, ObservationsOf, PublicBoundaryOf, PublicLosses, Limits,
      Troubled;
    assert |NATIVE| == 6 && |CODE_EXECUTION| == 19 && |CODE_FINALITY| == 18;
    AccountTellsMode(c, guard, process, m);
  }

  // ---------- an unsound capture ----------

  // DAMAGE TO THE CAPTURE is what makes it unsound beside its records: any issue but a missing or empty capture, a
  // missing end or a failed read.
  lemma DamageDecides(c: Capture)
    requires LoaderCapture(c)
    ensures Sound(c) <==>
            && Sound(c.(issues := []))
            && forall x :: x in c.issues ==> x in {MissingCapture, EmptyCapture, MissingCaptureEnd, CaptureIoError}
  {
    hide Take, SoundStart;
    KeptWhateverTheIssues(c.issues, c.records);
    SameStarts(Take(c.issues, c.records), Take([], c.records));
  }

  lemma SameStarts(t: Intake, u: Intake)
    requires t.starts == u.starts && t.terminals == u.terminals
    ensures Orphan(t) == Orphan(u) && forall id :: id in t.starts ==> SoundStart(id, t) == SoundStart(id, u)
  {}

  lemma UnsoundBoundariesSaySo(c: Capture, guard: Guard, process: ProcessState, m: Mode)
    requires !Sound(c)
    ensures var e := Build(c, guard, process);
            && NameOf(m) in e.coverage.boundaries
            && e.coverage.boundaries[NameOf(m)].status == Invalid && !e.coverage.boundaries[NameOf(m)].eligible
            && GlobalInvalidCapture in e.coverage.boundaries[NameOf(m)].issues
  {
    hide Sound, Take, Ids, Observe, AccountFor, ObservationsOf, PublicLosses, Limits, AccountingEvents, WellFormed,
      Orderly, PublicBoundaryOf;
    assert |NATIVE| == 6 && |CODE_EXECUTION| == 19 && |CODE_FINALITY| == 18;
    var events, env := AccountingEvents(c, guard), BuilderEnvironment(c, process);
    SoundEvents(c, guard);
    BuilderEnvironmentIsValid(c, process);
    FixedDeclaration();
    DisorderlyBoundaries(events, SUPPORTED, UNSUPPORTED, env);
    AccountIssues(events, env);
    PublicBoundaryTells(BuilderAccount(c, guard, process).boundaries[NameOf(m)], c.started);
  }

  // ---------- losses and limitations ----------

  // The one limitation of every capture is that Code Mode results are not final.
  lemma OnlyLimitation(c: Capture, guard: Guard, process: ProcessState)
    requires LoaderCapture(c)
    ensures Build(c, guard, process).coverage.unsupported == [CodeModeFinality]
    ensures CODE_FINALITY in Build(c, guard, process).coverage.boundaries
    ensures var b := Build(c, guard, process).coverage.boundaries[CODE_FINALITY];
            && b.status == Unsupported && !b.eligible && b.issues == [CodeModeFinality]
            && b.starts == b.terminals == b.missing == NoCount(NotSupported, FINALITY_REASON)
  {
    hide Sound, Take, Ids, Observe, AccountFor, ObservationsOf, PublicLosses, BuilderAccount;
    NeverUnsupportedStatus(c, guard, process, Native);
    NeverUnsupportedStatus(c, guard, process, CodeMode);
  }

  lemma NeverUnsupportedStatus(c: Capture, guard: Guard, process: ProcessState, m: Mode)
    requires LoaderCapture(c)
    ensures var a := BuilderAccount(c, guard, process);
            NameOf(m) in a.boundaries && a.boundaries[NameOf(m)].status != Unsupported
  {
    hide Sound, Take, Ids, Observe, AccountFor, ObservationsOf, AccountingEvents, WellFormed, Orderly, Entries,
      Reconstruct, FieldAt, UnclosedAt, Degraded, OverallVerdict, Rebuilt;
    var events, env := AccountingEvents(c, guard), BuilderEnvironment(c, process);
    SoundEvents(c, guard);
    BuilderEnvironmentIsValid(c, process);
    ModeDeclared(m);
    AccountIssues(events, env);
    AccountMeetsSpec(events, SUPPORTED, UNSUPPORTED, env);
    if Sound(c) {
      NeverUnsupportedAt(c, guard);
    } else {
      DisorderlyBoundaries(events, SUPPORTED, UNSUPPORTED, env);
    }
  }

  lemma {:induction false} PublishedMembers(issues: seq<Code>)
    ensures forall x :: x in Published(issues) <==>
              x in issues && x != UnsupportedBoundary && x != RequiredFieldUnsupported
  {
    if issues != [] {
      PublishedMembers(issues[..|issues| - 1]);
      assert issues == issues[..|issues| - 1] + [issues[|issues| - 1]];
    }
  }

  lemma SoundLossCodes(c: Capture)
    requires LoaderCapture(c) && Sound(c)
    ensures forall x :: x in LossCodes(c) <==> x in c.issues
  {
    LossCodesOf(c);
    TakeLosses(c.issues, c.records);
  }

  // What the capture as a whole gives as a loss.
  predicate CaptureGives(c: Capture, process: ProcessState, x: Code) {
    || (x == ObservationLoss && c.issues != [])
    || (x == ObservationNotClosed && !c.ended)
    || (x == ObserverFailure && c.ended && c.observerFailures.Some? && c.observerFailures.value > 0)
    || (x == CallbackFailure && c.ended && c.callbackFailures.Some? && c.callbackFailures.value > 0)
    || (x == RuntimeTimeout && process == TimedOut)
    || (x == ProcessInterrupted && (process == Interrupted || process == NoTransport))
  }

  // What its calls give.
  predicate CallsGive(os: seq<Observation>, x: Code) {
    || (x == MissingTerminal && exists i :: 0 <= i < |os| && os[i].outcome == Missing)
    || (x == RequiredFieldOmitted && exists i :: 0 <= i < |os| && HasOmission(os[i]))
  }

  lemma EnvironmentGives(c: Capture, process: ProcessState)
    requires LoaderCapture(c) && Sound(c)
    ensures forall x :: FromEnvironment(x, BuilderEnvironment(c, process)) <==> CaptureGives(c, process, x)
  {
    hide Sound, LossCodes;
    NoLossesIff(c);
  }

  lemma AccountGives(c: Capture, guard: Guard, process: ProcessState)
    requires LoaderCapture(c) && Sound(c)
    ensures var os := ObservationsOf(Ids(c), Take(c.issues, c.records), guard);
            forall x :: x in BuilderAccount(c, guard, process).issues <==>
              CaptureGives(c, process, x) || CallsGive(os, x) || x == UnsupportedBoundary
  {
    hide Sound, Take, Ids, Observe, Reconstruct, Orderly, WellFormed, AccountFor, ObservationsOf, HasOmission,
      AccountingEvents, Rebuilt, ShortIds, SomeStartUnclosed, SomeFieldOmitted, SomeFieldUnsupported, SomeUndeclared,
      LossCodes, IncompleteCount, FieldAt, CaptureGives, FromEnvironment, Entries, Names, Ordered;
    var os := ObservationsOf(Ids(c), Take(c.issues, c.records), guard);
    var env := BuilderEnvironment(c, process);
    SoundStream(c, guard);
    BuilderEnvironmentIsValid(c, process);
    FixedDeclaration();
    OrderlyIssues(Reconstruct(os), SUPPORTED, UNSUPPORTED, env);
    EnvironmentGives(c, process);
    OmissionsAre(os);
    UnclosedAre(os);
    NeverUndeclared(os);
    NoFieldUnsupported(c, guard);
  }

  lemma NoFieldUnsupported(c: Capture, guard: Guard)
    requires Sound(c)
    ensures var os := ObservationsOf(Ids(c), Take(c.issues, c.records), guard);
            WellFormed(Reconstruct(os)) && !SomeFieldUnsupported(Entries(Reconstruct(os)))
  {
    hide Sound, Take, Ids, Observe, Reconstruct, Entries, ObservationsOf;
    NeverUnsupportedAt(c, guard);
    var es := Entries(Reconstruct(ObservationsOf(Ids(c), Take(c.issues, c.records), guard)));
    forall k | 0 <= k < |es| ensures NotSupported !in es[k].states {
      assert !FieldAt(es, es[k].boundary, NotSupported);
    }
  }

  // EVERY PUBLISHED LOSS OF A SOUND CAPTURE has its own cause, and every cause is published.
  lemma LossesHaveCauses(c: Capture, guard: Guard, process: ProcessState)
    requires LoaderCapture(c) && Sound(c)
    ensures var e := Build(c, guard, process);
            forall x :: x in e.coverage.losses <==>
              x in c.issues || CaptureGives(c, process, x) || CallsGive(e.observations, x)
  {
    hide Sound, Take, Ids, Observe, AccountFor, ObservationsOf, CaptureGives, CallsGive, LossCodes, BuilderAccount,
      Published, Limits;
    AccountGives(c, guard, process);
    PublishedMembers(BuilderAccount(c, guard, process).issues);
    SoundLossCodes(c);
    NeverLimitations(c, process, ObservationsOf(Ids(c), Take(c.issues, c.records), guard));
  }

  lemma NeverLimitations(c: Capture, process: ProcessState, os: seq<Observation>)
    ensures forall x :: CaptureGives(c, process, x) || CallsGive(os, x) ==>
              x != UnsupportedBoundary && x != RequiredFieldUnsupported
  {}

  lemma NeverUndeclared(os: seq<Observation>)
    requires Rebuilt(os)
    ensures !SomeUndeclared(Entries(Reconstruct(os)), Declared(Names(SUPPORTED), Names(UNSUPPORTED)))
  {
    hide Reconstruct, Entries, StartStates, TerminalStates, Names;
    FixedDeclaration();
    var es := Entries(Reconstruct(os));
    forall k | 0 <= k < |es| ensures es[k].boundary in {NATIVE, CODE_EXECUTION} {
      var i := SourceOf(os, k);
    }
  }
}
