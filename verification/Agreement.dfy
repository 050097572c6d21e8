// Builder and validator agree: the evidence built from a capture passes the validator, which derives the
// accounting again from the public observations alone.

module Events {
  import opened Wrappers
  import opened Vocabulary
  import opened Evidence
  import opened Accounting
  import opened AccountingSpec
  import opened Validator
  import opened Builder
  import opened IntakeFacts

  // ---------- decoding the events of one observation ----------

  function StartStates(o: Observation): seq<FieldState> {
    [FieldStateOf(o.tool), FieldStateOf(o.actor), FieldStateOf(o.sessionId), FieldStateOf(o.messageId),
     FieldStateOf(o.callId), FieldStateOf(o.input)]
    + if o.mode.CodeMode? then [ParentState(o.parent)] else []
  }

  function TerminalStates(o: Observation): seq<FieldState> {
    [Available] + if o.mode.CodeMode? then []
                  else [FieldStateOf(if o.outcome.Success? then o.result else o.error)]
  }

  function StartEntry(o: Observation): Entry
    requires o.start >= 0
  {
    Entry(Start, o.start, o.id, BoundaryOf(o.mode), StartStates(o))
  }

  function TerminalEntry(o: Observation): Entry
    requires o.terminal.At? && o.terminal.sequence >= 0
  {
    Entry(Terminal, o.terminal.sequence, o.id, BoundaryOf(o.mode), TerminalStates(o))
  }

  predicate Names256(id: string) { 0 < |id| <= 256 }

  lemma StartDecodes(o: Observation)
    ensures Decode(StartItem(o))
            == if o.start >= 0 && Names256(o.id) then Some(StartEntry(o)) else None
  {
    var fields := StartItem(o).fields.value;
    assert |NATIVE| == 6 && |CODE_EXECUTION| == 19;
    assert ValidFields(fields);
    assert States(fields) == StartStates(o);
  }

  lemma TerminalDecodes(o: Observation)
    requires o.terminal.At?
    ensures Decode(TerminalItem(o))
            == if o.terminal.sequence >= 0 && Names256(o.id) then Some(TerminalEntry(o)) else None
  {
    var fields := TerminalItem(o).fields.value;
    assert |NATIVE| == 6 && |CODE_EXECUTION| == 19;
    assert ValidFields(fields);
    assert States(fields) == TerminalStates(o);
  }

  lemma WellFormedConcat(a: seq<Item>, b: seq<Item>)
    ensures WellFormed(a + b) <==> WellFormed(a) && WellFormed(b)
    ensures WellFormed(a + b) ==> Entries(a + b) == Entries(a) + Entries(b)
  {
    var all := a + b;
    if WellFormed(all) {
      forall i | 0 <= i < |a| ensures Decode(a[i]).Some? { assert all[i] == a[i]; }
      forall i | 0 <= i < |b| ensures Decode(b[i]).Some? { assert all[|a| + i] == b[i]; }
    }
  }

  lemma MarkedIsMalformed(condition: bool)
    ensures WellFormed(MarkWhen(condition)) <==> !condition
  {
    if condition { assert Decode(MarkWhen(condition)[0]) == None; }
  }

  // An observation whose parts are in order, so that its events are well formed when its id is short enough.
  predicate Ordered(o: Observation) {
    o.start >= 0 && (o.terminal.At? ==> o.terminal.sequence > o.start)
    && (o.terminal.At? <==> !o.outcome.Missing?)
  }

  function EntriesFrom(o: Observation): seq<Entry>
    requires Ordered(o)
  {
    [StartEntry(o)] + if o.terminal.At? then [TerminalEntry(o)] else []
  }

  lemma ItemsDecode(o: Observation)
    requires Ordered(o)
    ensures WellFormed(Items(o)) <==> Names256(o.id)
    ensures WellFormed(Items(o)) ==> Entries(Items(o)) == EntriesFrom(o)
  {
    StartDecodes(o);
    assert Items(o)[0] == StartItem(o);
    if o.terminal.At? {
      TerminalDecodes(o);
      assert Items(o)[1] == TerminalItem(o);
    }
  }

  // ---------- the events of an orderly list of observations ----------

  predicate Apart(a: Observation, b: Observation) {
    && a.id != b.id && a.start < b.start
    && (a.terminal.At? ==> a.terminal.sequence != b.start)
    && (b.terminal.At? ==> a.start != b.terminal.sequence)
    && (a.terminal.At? && b.terminal.At? ==> a.terminal.sequence != b.terminal.sequence)
  }

  predicate AllApart(os: seq<Observation>) {
    && (forall i :: 0 <= i < |os| ==> Ordered(os[i]))
    && (forall i, j :: 0 <= i < j < |os| ==> Apart(os[i], os[j]))
  }

  predicate ShortIds(os: seq<Observation>) {
    forall i :: 0 <= i < |os| ==> Names256(os[i].id)
  }

  lemma {:induction false} ReconstructWellFormed(os: seq<Observation>)
    requires forall i :: 0 <= i < |os| ==> Ordered(os[i])
    ensures WellFormed(Reconstruct(os)) <==> ShortIds(os)
  {
    hide Items, Names256, Ordered, Decode;
    if os != [] {
      var front, last := os[..|os| - 1], os[|os| - 1];
      ReconstructWellFormed(front);
      ItemsDecode(last);
      WellFormedConcat(Reconstruct(front), Items(last));
      assert ShortIds(os) <==> ShortIds(front) && Names256(last.id);
    }
  }

  ghost predicate ComesFrom(e: Entry, os: seq<Observation>) {
    exists k :: 0 <= k < |os| && e.id == os[k].id
      && (e.sequence == os[k].start || (os[k].terminal.At? && e.sequence == os[k].terminal.sequence))
  }

  lemma {:induction false} ReconstructOrderly(os: seq<Observation>)
    requires AllApart(os) && ShortIds(os)
    ensures WellFormed(Reconstruct(os)) && Orderly(Entries(Reconstruct(os)))
    ensures forall i :: 0 <= i < |Entries(Reconstruct(os))| ==> ComesFrom(Entries(Reconstruct(os))[i], os)
  {
    ReconstructWellFormed(os);
    if os == [] {
      assert Entries(Reconstruct(os)) == [];
    } else {
      var front, o := os[..|os| - 1], os[|os| - 1];
      ReconstructOrderly(front);
      ItemsDecode(o);
      WellFormedConcat(Reconstruct(front), Items(o));
      var es := Entries(Reconstruct(front));
      OneMore(es, front, o);
      assert os == front + [o];
      assert Entries(Reconstruct(os)) == es + EntriesFrom(o);
    }
  }

  lemma OneMore(es: seq<Entry>, front: seq<Observation>, o: Observation)
    requires Orderly(es) && forall i :: 0 <= i < |es| ==> ComesFrom(es[i], front)
    requires Ordered(o) && forall i :: 0 <= i < |front| ==> Apart(front[i], o)
    ensures Orderly(es + EntriesFrom(o))
    ensures forall i :: 0 <= i < |es + EntriesFrom(o)| ==> ComesFrom((es + EntriesFrom(o))[i], front + [o])
  {
    hide StartStates, TerminalStates, Orderly;
    var s := StartEntry(o);
    assert forall i :: 0 <= i < |es| ==> es[i].id != o.id && es[i].sequence != o.start;
    assert Fits(es, s);
    OrderlySnoc(es, s);
    var all := es + EntriesFrom(o);
    var os := front + [o];
    assert os[|front|] == o;
    if o.terminal.At? {
      var t := TerminalEntry(o);
      var started := es + [s];
      assert started[|es|] == s && Opens(started[|es|], t);
      assert forall i :: 0 <= i < |es| ==> started[i] == es[i] && es[i].sequence != t.sequence;
      assert Fits(started, t);
      OrderlySnoc(started, t);
      assert all == started + [t];
    } else {
      assert all == es + [s];
    }
    forall i | 0 <= i < |all| ensures ComesFrom(all[i], os) {
      if i < |es| {
        assert all[i] == es[i];
        var k :| 0 <= k < |front| && es[i].id == front[k].id
          && (es[i].sequence == front[k].start
              || (front[k].terminal.At? && es[i].sequence == front[k].terminal.sequence));
        assert os[k] == front[k];
      } else {
        assert all[i].id == os[|front|].id;
      }
    }
  }

  // ---------- the events of a capture ----------

  // The start with this id adds no malformed marker, and its terminal, if any, is paired with it.
  predicate SoundStart(id: string, t: Intake) {
    && id in t.starts && |id| <= 256
    && (t.starts[id].kind.CodeStart? ==> ParentObserved(t.starts[id], t.starts))
    && (id in t.terminals ==> Paired(t.starts[id], Some(t.terminals[id])))
  }

  predicate Sound(c: Capture) {
    var t := Take(c.issues, c.records);
    !t.invalid && !Orphan(t) && forall id :: id in t.starts ==> SoundStart(id, t)
  }

  lemma ObservedIsOrdered(id: string, t: Intake, guard: Guard)
    requires Kept(t) && id in t.starts
    ensures Ordered(Observe(id, t.starts[id], Lookup(t.terminals, id), guard))
  {}

  lemma EventsOfStart(id: string, t: Intake, guard: Guard)
    requires Kept(t) && id in t.starts
    ensures WellFormed(EventsOf(id, t, guard)) <==> SoundStart(id, t)
    ensures SoundStart(id, t)
            ==> EventsOf(id, t, guard) == Items(Observe(id, t.starts[id], Lookup(t.terminals, id), guard))
  {
    var start, terminal := t.starts[id], Lookup(t.terminals, id);
    var o := Observe(id, start, terminal, guard);
    var m1 := MarkWhen(start.kind.CodeStart? && !ParentObserved(start, t.starts));
    var m2 := MarkWhen(terminal.Some? && EarlyFault(start, terminal.value));
    var m3 := MarkWhen(terminal.Some? && !EarlyFault(start, terminal.value) && LateFault(start, terminal.value));
    MarkedIsMalformed(start.kind.CodeStart? && !ParentObserved(start, t.starts));
    MarkedIsMalformed(terminal.Some? && EarlyFault(start, terminal.value));
    MarkedIsMalformed(terminal.Some? && !EarlyFault(start, terminal.value) && LateFault(start, terminal.value));
    WellFormedConcat(m1, m2);
    WellFormedConcat(m1 + m2, Items(o));
    WellFormedConcat(m1 + m2 + Items(o), m3);
    ObservedIsOrdered(id, t, guard);
    ItemsDecode(o);
  }

  predicate AllSound(ids: seq<string>, t: Intake) {
    forall x :: x in ids ==> SoundStart(x, t)
  }

  lemma AllSoundSnoc(front: seq<string>, last: string, t: Intake)
    ensures AllSound(front + [last], t) <==> AllSound(front, t) && SoundStart(last, t)
  {}

  lemma {:induction false} EventsForStarts(ids: seq<string>, t: Intake, guard: Guard)
    requires Kept(t) && forall x :: x in ids ==> x in t.starts
    ensures WellFormed(EventsFor(ids, t, guard)) <==> AllSound(ids, t)
    ensures AllSound(ids, t) ==> EventsFor(ids, t, guard) == Reconstruct(ObservationsOf(ids, t, guard))
  {
    if ids == [] {
      assert ObservationsOf(ids, t, guard) == [];
    } else {
      var front, last := ids[..|ids| - 1], ids[|ids| - 1];
      assert ids == front + [last];
      EventsForStarts(front, t, guard);
      EventsOfStart(last, t, guard);
      AllSoundSnoc(front, last, t);
      WellFormedConcat(EventsFor(front, t, guard), EventsOf(last, t, guard));
      ObservationsSnoc(ids, t, guard);
    }
  }

  lemma ObservationsSnoc(ids: seq<string>, t: Intake, guard: Guard)
    requires ids != [] && forall x :: x in ids ==> x in t.starts
    ensures var front, last := ids[..|ids| - 1], ids[|ids| - 1];
            ObservationsOf(ids, t, guard)
            == ObservationsOf(front, t, guard) + [Observe(last, t.starts[last], Lookup(t.terminals, last), guard)]
  {}

  // A capture is sound exactly when none of its accounting events is malformed; then the events are the ones
  // the validator rebuilds from the public observations.
  lemma SoundEvents(c: Capture, guard: Guard)
    ensures WellFormed(AccountingEvents(c, guard)) <==> Sound(c)
    ensures Sound(c) ==> AccountingEvents(c, guard)
                         == Reconstruct(ObservationsOf(Ids(c), Take(c.issues, c.records), guard))
  {
    var t := Take(c.issues, c.records);
    var ids := Ids(c);
    TakeKeeps(c.issues, c.records);
    EventsForStarts(ids, t, guard);
    MarkedIsMalformed(t.invalid);
    MarkedIsMalformed(Orphan(t));
    WellFormedConcat(MarkWhen(t.invalid), EventsFor(ids, t, guard));
    WellFormedConcat(MarkWhen(t.invalid) + EventsFor(ids, t, guard), MarkWhen(Orphan(t)));
    assert AllSound(ids, t) <==> (forall id :: id in t.starts ==> SoundStart(id, t));
  }

  lemma ObservationsApart(c: Capture, guard: Guard)
    ensures AllApart(ObservationsOf(Ids(c), Take(c.issues, c.records), guard))
  {
    var t := Take(c.issues, c.records);
    var ids := Ids(c);
    var os := ObservationsOf(ids, t, guard);
    TakeKeeps(c.issues, c.records);
    IdsIncreasing(c);
    forall i | 0 <= i < |os| ensures Ordered(os[i]) {
      ObservedIsOrdered(ids[i], t, guard);
    }
    forall i, j | 0 <= i < j < |os| ensures Apart(os[i], os[j]) {
      assert ids[i] in ids && ids[j] in ids && ids[i] != ids[j];
    }
  }
}

module Agreement {
  import opened Wrappers
  import opened Sequences
  import opened Vocabulary
  import opened Evidence
  import opened Accounting
  import opened AccountingSpec
  import opened Validator
  import opened Builder
  import opened IntakeFacts
  import opened Events

  // The issues the loader and the transport can report (container/native_observer.py:73-263).
  predicate LoaderCode(c: Code) {
    c.MalformedCapture? || c.WrongSchema? || c.AmbiguousOrder? || c.InvalidCaptureStart?
    || c.RecordsAfterCaptureEnd? || c.InvalidCaptureEnd? || c.InvalidRecord? || c.MissingCaptureEnd?
    || c.CountMismatch? || c.UnterminatedCapture? || c.MissingCapture? || c.EmptyCapture? || c.CaptureIoError?
  }

  // What every capture of the loader and the transport satisfies: its own vocabulary, and an issue whenever
  // the capture start is missing.
  predicate LoaderCapture(c: Capture) {
    && (forall i :: i in c.issues ==> LoaderCode(i))
    && (!c.started ==> c.issues != [])
  }

  // Reasons given by the guard are never blank: they come from a fixed list (container/evidence_safety.py:28).
  ghost predicate TextualGuard(guard: Guard) {
    forall v :: guard(v).Refuse? && guard(v).reason != "" ==> NonBlank(guard(v).reason)
  }

  // ---------- facts about the account of the three fixed boundaries ----------

  lemma FixedDeclaration()
    ensures ValidDeclaration(SUPPORTED, UNSUPPORTED)
    ensures Names(SUPPORTED) == {NATIVE, CODE_EXECUTION} && Names(UNSUPPORTED) == {CODE_FINALITY}
  {
    assert |NATIVE| == 6 && |CODE_EXECUTION| == 19 && |CODE_FINALITY| == 18;
    assert SUPPORTED[0] == Some(NATIVE) && SUPPORTED[1] == Some(CODE_EXECUTION);
    assert UNSUPPORTED[0] == Some(CODE_FINALITY);
  }

  lemma {:induction false} MalformedCounted(stream: seq<Item>, declared: Declared)
    ensures Run(stream, declared).totals.malformed != 0 <==> !WellFormed(stream)
  {
    if stream != [] {
      MalformedCounted(stream[..|stream| - 1], declared);
      EntriesSnoc(stream);
      StepMalformed(Run(stream[..|stream| - 1], declared), stream[|stream| - 1], declared);
    }
  }

  lemma StepMalformed(l: Ledger, item: Item, declared: Declared)
    ensures Step(l, item, declared).totals.malformed
            == l.totals.malformed + if Decode(item).None? then 1 else 0
  {}

  // Codes an account itself can list.
  predicate AccountCode(c: Code) {
    GloballyInvalid(c) || GloballyIncomplete(c) || LedgerOnly(c)
  }

  lemma AccountIssues(stream: seq<Item>, env: Environment)
    requires ValidEnvironment(env)
    ensures var a := AccountFor(stream, SUPPORTED, UNSUPPORTED, env);
            && (MalformedObservation in a.issues <==> !WellFormed(stream))
            && (DuplicateSequence in a.issues ==> a.status == Invalid)
            && (forall c :: c in a.issues ==> AccountCode(c))
            && NATIVE in a.boundaries && CODE_EXECUTION in a.boundaries
  {
    FixedDeclaration();
    var declared := Declared(Names(SUPPORTED), Names(UNSUPPORTED));
    var l := Run(stream, declared);
    MalformedCounted(stream, declared);
    RunIssues(stream, declared);
    SettleTotals(l, l.order);
    var s := Settle(l, l.order);
    ConcludedIssues(s, declared, env);
    EnvironmentIssueSet(s.issues, env);
    LedgerIssueSet(EnvironmentIssues(s.issues, env), s, declared);
    RunKeepsDeclared(stream, declared);
    var a := AccountFor(stream, SUPPORTED, UNSUPPORTED, env);
    assert a == Conclude(s, declared, env);
    if DuplicateSequence in a.issues { DirtyAccount(stream, declared, env); }
  }

  lemma {:induction false} RunKeepsDeclared(stream: seq<Item>, declared: Declared)
    ensures declared.supported <= Run(stream, declared).boundaries.Keys
  {
    if stream != [] { RunKeepsDeclared(stream[..|stream| - 1], declared); }
  }

  // Boundary issues are the accounting's own codes.
  ghost predicate OwnIssues(bs: map<string, Boundary>) {
    forall n :: n in bs ==> OwnCodes(bs[n].issues)
  }

  predicate OwnCodes(codes: seq<Code>) {
    forall c :: c in codes ==> !c.OtherCode?
  }

  lemma MarkOwn(b: Boundary, s: Status, code: Code)
    requires OwnCodes(b.issues) && !code.OtherCode?
    ensures OwnCodes(Mark(b, s, code).issues)
  {}

  lemma {:induction false} ChargeOwn(b: Boundary, states: seq<FieldState>)
    requires OwnCodes(b.issues)
    ensures OwnCodes(Charge(b, states).issues)
  {
    if states != [] { ChargeOwn(b, states[..|states| - 1]); }
  }

  lemma StepOwn(l: Ledger, item: Item, declared: Declared)
    requires OwnIssues(l.boundaries)
    ensures OwnIssues(Step(l, item, declared).boundaries)
  {
    hide Decode, CountOf, Charge, Reach, PostNew, OwnCodes, Mark;
    if Decode(item).Some? {
      var e := Decode(item).value;
      var b := Reach(l.boundaries, e.boundary, declared);
      ReachOwn(l, e, declared);
      MarkOwn(b, Invalid, DuplicateSequence);
      NewOwn(l, e, b);
    }
  }

  lemma ReachOwn(l: Ledger, e: Entry, declared: Declared)
    requires OwnIssues(l.boundaries)
    ensures OwnCodes(Reach(l.boundaries, e.boundary, declared).issues)
  {}

  lemma NewOwn(l: Ledger, e: Entry, b: Boundary)
    requires OwnIssues(l.boundaries) && OwnCodes(b.issues)
    ensures OwnIssues(PostNew(l, e, b).boundaries)
  {
    hide CountOf, Charge;
    ChargeOwn(b, e.states);
  }

  lemma {:induction false} RunOwn(stream: seq<Item>, declared: Declared)
    ensures OwnIssues(Run(stream, declared).boundaries)
  {
    if stream != [] {
      RunOwn(stream[..|stream| - 1], declared);
      StepOwn(Run(stream[..|stream| - 1], declared), stream[|stream| - 1], declared);
    }
  }

  lemma {:induction false} SettleOwn(l: Ledger, ids: seq<string>)
    requires OwnIssues(l.boundaries)
    ensures OwnIssues(Settle(l, ids).boundaries)
  {
    if ids != [] { SettleOwn(l, ids[..|ids| - 1]); }
  }

  lemma AccountOwn(stream: seq<Item>, env: Environment)
    ensures OwnIssues(AccountFor(stream, SUPPORTED, UNSUPPORTED, env).boundaries)
  {
    var declared := Declared(Names(SUPPORTED), Names(UNSUPPORTED));
    RunOwn(stream, declared);
    SettleOwn(Run(stream, declared), Run(stream, declared).order);
  }

  // ---------- loss codes ----------

  lemma {:induction false} CountsLosses(codes: seq<Code>)
    ensures LossCount(codes) != 0 <==> exists c :: c in codes && CaptureLoss(c)
  {
    if codes != [] {
      assert codes == codes[..|codes| - 1] + [codes[|codes| - 1]];
      CountsLosses(codes[..|codes| - 1]);
    }
  }

  lemma {:induction false} CountsIncomplete(codes: seq<Code>)
    ensures IncompleteCount(codes) != 0 <==> exists c :: c in codes && !InvalidCapture(c)
  {
    if codes != [] {
      assert codes == codes[..|codes| - 1] + [codes[|codes| - 1]];
      CountsIncomplete(codes[..|codes| - 1]);
    }
  }

  lemma {:induction false} PublishedMembers(issues: seq<Code>)
    ensures forall c :: c in Published(issues) <==>
              c in issues && !c.UnsupportedBoundary? && !c.RequiredFieldUnsupported?
  {
    if issues != [] {
      assert issues == issues[..|issues| - 1] + [issues[|issues| - 1]];
      PublishedMembers(issues[..|issues| - 1]);
    }
  }

  lemma LossCodesOf(c: Capture)
    requires LoaderCapture(c)
    ensures forall x :: x in c.issues ==> x in LossCodes(c)
    ensures forall x :: x in LossCodes(c) ==> LoaderCode(x) || x == DuplicateSequence || x == MalformedObservation
    ensures !Take(c.issues, c.records).invalid ==> forall x :: x in LossCodes(c) ==> !InvalidCapture(x)
  {
    var t := Take(c.issues, c.records);
    TakeLosses(c.issues, c.records);
    AddNewMembers(t.losses, MalformedObservation);
  }

  // ---------- the second accounting ----------

  function BuilderEnvironment(c: Capture, process: ProcessState): Environment {
    Environment(c.ended, OrZero(Failures(c, c.observerFailures)), OrZero(Failures(c, c.callbackFailures)),
                IncompleteCount(LossCodes(c)), Some(Effective(process)))
  }

  lemma BuilderEnvironmentIsValid(c: Capture, process: ProcessState)
    ensures ValidEnvironment(BuilderEnvironment(c, process))
  {}

  // The builder's status is invalid exactly for an unsound capture.
  lemma InvalidIffUnsound(c: Capture, guard: Guard, process: ProcessState)
    ensures Build(c, guard, process).status == Invalid <==> !Sound(c)
  {
    hide AccountFor, Sound, ObservationsOf, Ids, Take, Reconstruct, Entries, WellFormed, Orderly, AllApart, ShortIds,
      Ordered, AccountingEvents, Failures, IncompleteCount, Effective, LossCodes;
    var events := AccountingEvents(c, guard);
    BuilderEnvironmentIsValid(c, process);
    FixedDeclaration();
    AccountMeetsSpec(events, SUPPORTED, UNSUPPORTED, BuilderEnvironment(c, process));
    SoundEvents(c, guard);
    if Sound(c) {
      var os := ObservationsOf(Ids(c), Take(c.issues, c.records), guard);
      ObservationsApart(c, guard);
      ReconstructWellFormed(os);
      ReconstructOrderly(os);
    }
  }

  lemma SameAccount(stream: seq<Item>, env: Environment, other: Environment)
    requires ValidEnvironment(env) && ValidEnvironment(other) && Degraded(env) == Degraded(other)
    ensures var a, b := AccountFor(stream, SUPPORTED, UNSUPPORTED, env),
                        AccountFor(stream, SUPPORTED, UNSUPPORTED, other);
            && a.status == b.status
            && NATIVE in a.boundaries && NATIVE in b.boundaries
            && CODE_EXECUTION in a.boundaries && CODE_EXECUTION in b.boundaries
            && a.boundaries[NATIVE].status == b.boundaries[NATIVE].status
            && a.boundaries[CODE_EXECUTION].status == b.boundaries[CODE_EXECUTION].status
  {
    FixedDeclaration();
    AccountMeetsSpec(stream, SUPPORTED, UNSUPPORTED, env);
    AccountMeetsSpec(stream, SUPPORTED, UNSUPPORTED, other);
    AccountIssues(stream, env);
    AccountIssues(stream, other);
  }

  lemma PublishedLosses(c: Capture, guard: Guard, process: ProcessState)
    requires LoaderCapture(c)
    ensures var losses := PublicLosses(c, BuilderAccount(c, guard, process));
            && (!Sound(c) ==> SomeInvalidLoss(losses))
            && (Sound(c) ==> !SomeInvalidLoss(losses))
            && (Sound(c) ==> (LossCount(losses) != 0 <==> IncompleteCount(LossCodes(c)) != 0))
            && ValidCodes(losses)
  {
    var events, env := AccountingEvents(c, guard), BuilderEnvironment(c, process);
    var a := BuilderAccount(c, guard, process);
    assert a == AccountFor(events, SUPPORTED, UNSUPPORTED, env);
    AccountIssues(events, env);
    SoundEvents(c, guard);
    InvalidIffUnsound(c, guard, process);
    assert Sound(c) ==> !Take(c.issues, c.records).invalid;
    assert Build(c, guard, process).status == a.status;
    LossesFrom(c, a, Sound(c));
  }

  lemma LossesFrom(c: Capture, a: Account, sound: bool)
    requires LoaderCapture(c)
    requires forall x :: x in a.issues ==> AccountCode(x)
    requires sound <==> MalformedObservation !in a.issues
    requires sound ==> DuplicateSequence !in a.issues && !Take(c.issues, c.records).invalid
    ensures var losses := PublicLosses(c, a);
            && (!sound ==> SomeInvalidLoss(losses))
            && (sound ==> !SomeInvalidLoss(losses))
            && (sound ==> (LossCount(losses) != 0 <==> IncompleteCount(LossCodes(c)) != 0))
            && ValidCodes(losses)
  {
    hide Take, LossCodes, AccountCode;
    var losses := PublicLosses(c, a);
    PublishedMembers(a.issues);
    LossCodesOf(c);
    MergedLosses(LossCodes(c), Published(a.issues), losses, sound);
    CountsLosses(losses);
    CountsIncomplete(LossCodes(c));
  }

  lemma MergedLosses(codes: seq<Code>, published: seq<Code>, losses: seq<Code>, sound: bool)
    requires losses == Dedupe(codes + published)
    requires forall x :: x in codes ==> LoaderCode(x) || x == DuplicateSequence || x == MalformedObservation
    requires forall x :: x in published ==> AccountCode(x)
    requires sound ==> forall x :: x in codes ==> !InvalidCapture(x)
    requires sound ==> MalformedObservation !in published && DuplicateSequence !in published
    requires !sound ==> MalformedObservation in published
    ensures SomeInvalidLoss(losses) <==> !sound
    ensures sound ==> ((exists c :: c in losses && CaptureLoss(c)) <==> (exists c :: c in codes && !InvalidCapture(c)))
    ensures ValidCodes(losses)
  {
    hide LoaderCode, AccountCode, InvalidCapture, CaptureLoss, NonBlankCode;
    assert forall x :: x in losses <==> x in codes || x in published;
    CodeClasses();
    if sound {
      forall x | x in losses ensures !InvalidCapture(x) && (CaptureLoss(x) <==> x in codes) {
        if x in published { assert AccountCode(x); }
      }
    }
    forall i | 0 <= i < |losses| ensures NonBlankCode(losses[i]) {
      assert losses[i] in losses;
    }
  }

  lemma CodeClasses()
    ensures forall x :: AccountCode(x) && x != MalformedObservation && x != DuplicateSequence
              ==> !InvalidCapture(x) && !CaptureLoss(x)
    ensures forall x :: LoaderCode(x) && !InvalidCapture(x) ==> CaptureLoss(x)
    ensures forall x :: AccountCode(x) || LoaderCode(x) ==> NonBlankCode(x)
    ensures InvalidCapture(MalformedObservation) && InvalidCapture(DuplicateSequence)
    ensures NonBlankCode(MalformedObservation) && NonBlankCode(DuplicateSequence)
  {}

  // The account the validator derives again from the public object.
  function SecondEnvironment(c: Capture, process: ProcessState, losses: seq<Code>): Environment {
    Environment(c.ended, OrZero(Failures(c, c.observerFailures)), OrZero(Failures(c, c.callbackFailures)),
                LossCount(losses), Some(Effective(process)))
  }

  function SecondStream(c: Capture, guard: Guard, losses: seq<Code>): seq<Item> {
    Reconstruct(ObservationsOf(Ids(c), Take(c.issues, c.records), guard))
    + (if SomeInvalidLoss(losses) then [MARKER] else [])
  }

  lemma ReaccountedIs(c: Capture, guard: Guard, process: ProcessState)
    ensures var losses := PublicLosses(c, BuilderAccount(c, guard, process));
            Reaccounted(Build(c, guard, process))
            == AccountFor(SecondStream(c, guard, losses), SUPPORTED, UNSUPPORTED,
                          SecondEnvironment(c, process, losses))
  {
    hide AccountFor, Reconstruct, ObservationsOf, LossCount, PublicLosses, Limits, TerminalCount;
  }

  lemma BothInvalid(stream: seq<Item>, env: Environment)
    requires ValidEnvironment(env) && !WellFormed(stream)
    ensures var a := AccountFor(stream, SUPPORTED, UNSUPPORTED, env);
            && a.status == Invalid && NATIVE in a.boundaries && CODE_EXECUTION in a.boundaries
            && a.boundaries[NATIVE].status == Invalid && a.boundaries[CODE_EXECUTION].status == Invalid
  {
    hide AccountFor;
    FixedDeclaration();
    AccountMeetsSpec(stream, SUPPORTED, UNSUPPORTED, env);
    AccountIssues(stream, env);
  }

  ghost predicate SameStatuses(a: Account, b: Account) {
    && a.status == b.status
    && NATIVE in a.boundaries && NATIVE in b.boundaries
    && CODE_EXECUTION in a.boundaries && CODE_EXECUTION in b.boundaries
    && a.boundaries[NATIVE].status == b.boundaries[NATIVE].status
    && a.boundaries[CODE_EXECUTION].status == b.boundaries[CODE_EXECUTION].status
  }

  lemma EnvironmentsAgree(c: Capture, process: ProcessState, losses: seq<Code>)
    ensures ValidEnvironment(BuilderEnvironment(c, process)) && ValidEnvironment(SecondEnvironment(c, process, losses))
    ensures (LossCount(losses) != 0 <==> IncompleteCount(LossCodes(c)) != 0)
            ==> Degraded(BuilderEnvironment(c, process)) == Degraded(SecondEnvironment(c, process, losses))
  {
    BuilderEnvironmentIsValid(c, process);
  }

  // On a sound capture the second stream is the first.
  lemma SoundAgain(c: Capture, guard: Guard, losses: seq<Code>)
    requires Sound(c) && !SomeInvalidLoss(losses)
    ensures SecondStream(c, guard, losses) == AccountingEvents(c, guard)
  {
    hide Sound, SomeInvalidLoss, Reconstruct, ObservationsOf, AccountingEvents;
    SoundEvents(c, guard);
  }

  // On an unsound capture both streams hold something malformed.
  lemma UnsoundAgain(c: Capture, guard: Guard, losses: seq<Code>)
    requires SomeInvalidLoss(losses)
    ensures !WellFormed(SecondStream(c, guard, losses))
  {
    hide Reconstruct, ObservationsOf, SomeInvalidLoss, Ids, Take;
    WellFormedConcat(Reconstruct(ObservationsOf(Ids(c), Take(c.issues, c.records), guard)), [MARKER]);
    assert Decode([MARKER][0]) == None;
  }

  lemma SecondAccountAgrees(c: Capture, guard: Guard, process: ProcessState)
    requires LoaderCapture(c)
    ensures SameStatuses(BuilderAccount(c, guard, process), Reaccounted(Build(c, guard, process)))
  {
    hide AccountFor, PublicLosses, Build, Reaccounted, AccountingEvents, SecondEnvironment, SecondStream, WellFormed,
      SomeInvalidLoss, Reconstruct, ObservationsOf, Ids, Take, Sound, Degraded;
    var events, env := AccountingEvents(c, guard), BuilderEnvironment(c, process);
    var losses := PublicLosses(c, BuilderAccount(c, guard, process));
    var again, other := SecondStream(c, guard, losses), SecondEnvironment(c, process, losses);
    PublishedLosses(c, guard, process);
    ReaccountedIs(c, guard, process);
    SoundEvents(c, guard);
    EnvironmentsAgree(c, process, losses);
    if Sound(c) {
      SoundAgain(c, guard, losses);
      SameAccount(events, env, other);
    } else {
      UnsoundAgain(c, guard, losses);
      BothInvalid(events, env);
      BothInvalid(again, other);
    }
  }
}
