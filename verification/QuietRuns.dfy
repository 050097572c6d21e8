// From the observer's run to the published evidence: when a disposed run without trouble is complete.

module QuietRuns {
  import opened Wrappers
  import opened Sequences
  import opened Vocabulary
  import opened Json
  import opened Records
  import opened Evidence
  import opened Validator
  import opened Builder
  import opened IntakeFacts
  import opened Events
  import opened Agreement
  import opened Loader
  import opened LossDetection
  import opened LoadedEvidence
  import opened CaptureStatus
  import opened ObserverModel
  import opened ObserverMirror
  import opened RunBooks

  // ---------- where the intake's records come from ----------

  // The start of a is written before the start of b, or before its terminal.
  ghost predicate StartsBefore(lines: seq<Line>, a: string, b: string) {
    exists j: nat, k: nat :: j < k && StartAt(lines, j, a) && StartAt(lines, k, b)
  }

  ghost predicate ClosesAfterStart(lines: seq<Line>, id: string) {
    exists j: nat, k: nat :: j < k && StartAt(lines, j, id) && TerminalAt(lines, k, id)
  }

  ghost predicate Placed(t: Intake, lines: seq<Line>) {
    && (forall k: nat, id :: StartAt(lines, k, id) ==> id in t.starts && t.starts[id].sequence == k)
    && (forall k: nat, id :: TerminalAt(lines, k, id) ==> id in t.terminals && t.terminals[id].sequence == k)
    && (forall id :: id in t.starts ==> t.starts[id].sequence >= 0 && StartAt(lines, t.starts[id].sequence, id))
    && (forall id :: id in t.terminals ==>
          t.terminals[id].sequence >= 0 && TerminalAt(lines, t.terminals[id].sequence, id))
  }

  // An intake that found nothing wrong keeps every record at the line that carried it.
  lemma {:induction false} TakeIsPlaced(lines: seq<Line>)
    requires !Take([], RecordsOf(lines)).invalid
    ensures Placed(Take([], RecordsOf(lines)), lines)
  {
    hide Placed, TakeOne;
    if lines == [] {
      NothingPlaced();
    } else {
      var front, last := lines[..|lines| - 1], lines[|lines| - 1];
      var before, rs := RecordsOf(front), RecordsOf(lines);
      if last.Event? && last.body.Data? {
        assert rs[..|rs| - 1] == before;
        TakeInvalid(Take([], before), rs[|rs| - 1]);
        TakeIsPlaced(front);
        PlaceOne(Take([], before), front, last);
        assert lines == front + [last];
      } else {
        assert rs == before;
        TakeIsPlaced(front);
        PlaceNone(Take([], before), front, last);
        assert lines == front + [last];
      }
    }
  }

  lemma NothingPlaced()
    ensures Placed(Take([], RecordsOf([])), [])
  {}

  lemma TakeInvalid(t: Intake, r: Record)
    ensures t.invalid ==> TakeOne(t, r).invalid
  {}

  lemma PlaceOne(t: Intake, front: seq<Line>, last: Line)
    requires Placed(t, front) && last.Event? && last.body.Data?
    requires !TakeOne(t, last.body.record.(sequence := |front|)).invalid
    ensures Placed(TakeOne(t, last.body.record.(sequence := |front|)), front + [last])
  {
    var all := front + [last];
    assert all[|front|] == last && forall k :: 0 <= k < |front| ==> all[k] == front[k];
    assert forall k: nat, id :: StartAt(all, k, id) && k < |front| ==> StartAt(front, k, id);
    assert forall k: nat, id :: TerminalAt(all, k, id) && k < |front| ==> TerminalAt(front, k, id);
  }

  lemma PlaceNone(t: Intake, front: seq<Line>, last: Line)
    requires Placed(t, front) && !(last.Event? && last.body.Data?)
    ensures Placed(t, front + [last])
  {
    var all := front + [last];
    assert all[|front|] == last && forall k :: 0 <= k < |front| ==> all[k] == front[k];
    assert forall k: nat, id :: StartAt(all, k, id) ==> StartAt(front, k, id);
    assert forall k: nat, id :: TerminalAt(all, k, id) ==> TerminalAt(front, k, id);
  }

  lemma PlacedOrder(t: Intake, lines: seq<Line>, a: string, b: string)
    requires Placed(t, lines) && a in t.starts
    ensures b in t.starts ==> (StartsBefore(lines, a, b) <==> t.starts[a].sequence < t.starts[b].sequence)
    ensures a in t.terminals ==> (ClosesAfterStart(lines, a) <==> t.starts[a].sequence < t.terminals[a].sequence)
  {}

  // ---------- a closed run ----------

  predicate Plain(text: string) { text != "" && '\0' !in text }

  predicate PlainIdentity(i: Identity) {
    Plain(i.tool) && Plain(i.session) && Plain(i.agent) && Plain(i.message) && Plain(i.call)
  }

  predicate PlainRun(begun: map<string, Begun>) {
    forall id :: id in begun ==> PlainIdentity(begun[id].identity)
  }

  // What the observer shows of a text is the text.
  ghost predicate Faithful(p: Projector) {
    forall x: string :: Said(p, x).Shown? ==> Said(p, x) == Shown(Text(x))
  }

  ghost predicate NeverRefuses(guard: Guard) {
    forall v :: !guard(v).Refuse?
  }

  // Every call begun has been written and closed.
  predicate AllClosed(s: State) {
    s.pending == {} && s.nativeActive == map[] && s.codeActive == {}
  }

  // The builder accepts a Code Mode call when its outer call came through the hook, had the same agent, and
  // was written first.
  ghost predicate ChildInOrder(s: State, id: string)
    requires id in s.begun && s.begun[id].BegunCode? && s.begun[id].parent in s.begun
  {
    var b := s.begun[id];
    var outer := s.begun[b.parent];
    && outer.BegunNative? && outer.hook && outer.identity.agent == b.identity.agent
    && StartsBefore(s.sent, b.parent, id)
  }

  ghost predicate NativeInOrder(s: State) {
    forall id :: id in s.begun && s.begun[id].BegunNative? ==> ClosesAfterStart(s.sent, id)
  }

  ghost predicate ChildrenInOrder(s: State) {
    forall id :: id in s.begun && s.begun[id].BegunCode? ==>
      s.begun[id].parent in s.begun && ChildInOrder(s, id)
  }

  // ---------- the loader ----------

  lemma DisposedIsLoaded(s: State, p: Projector)
    requires Mirror(s, p) && Quiet(s) && s.pending == {} && |s.sent| + 1 <= MAX_RECORDS
    ensures Load(Bytes(Act(s, p, Dispose(true)).sent, true))
            == Capture(true, true, RecordsOf(s.sent), Some(0), Some(0), [])
  {
    hide IntakeMirrors, BegunMirrors, ActiveMirrors, OuterMirrors, CountsMirror, Open, Take, GoodData, Read, RecordsOf,
      Transcript, CountsMatch, Act;
    var done := Act(s, p, Dispose(true)).sent;
    assert Running(s);
    DisposedTranscript(s, p);
    IssueFreeExactly(done, true);
    TranscriptIsEnded(done);
    SilentReading(done);
  }

  // ---------- the builder ----------

  // Identities without NUL are told apart by their key.
  lemma SameKey(i: Identity, j: Identity)
    requires PlainIdentity(i) && PlainIdentity(j) && Key(i) == Key(j)
    ensures i.session == j.session && i.message == j.message && i.call == j.call
  {
    assert Key(i) == i.session + "\0" + (i.message + "\0" + i.call);
    assert Key(j) == j.session + "\0" + (j.message + "\0" + j.call);
    SameAroundSeparator('\0', i.session, j.session, i.message + "\0" + i.call, j.message + "\0" + j.call);
    SameAroundSeparator('\0', i.message, j.message, i.call, j.call);
  }

  ghost predicate ClosedMirror(s: State, p: Projector) {
    Mirror(s, p) && AllClosed(s) && Faithful(p) && PlainRun(s.begun)
  }

  lemma EverythingTaken(s: State, p: Projector)
    requires ClosedMirror(s, p)
    ensures var t := Held(s);
            && !t.invalid && t.starts.Keys == s.begun.Keys && t.terminals.Keys == s.begun.Keys
            && Placed(t, s.sent)
  {
    hide StartMirrors, TerminalMirrors, Kept, OuterMirrors, BegunMirrors, CountsMirror, Open, Take, RecordsOf, Key;
    TakeIsPlaced(s.sent);
  }

  lemma OuterOfChild(s: State, p: Projector, id: string)
    requires ClosedMirror(s, p) && id in s.begun && s.begun[id].BegunCode?
    ensures var parent := s.begun[id].parent;
            && parent != "" && parent in s.begun && s.begun[parent].BegunNative?
            && (s.begun[parent].hook ==> s.begun[parent].identity.tool == "execute")
            && s.begun[parent].identity.session == s.begun[id].identity.session
            && s.begun[parent].identity.message == s.begun[id].identity.message
            && s.begun[parent].identity.call == s.begun[id].identity.call
  {
    hide IntakeMirrors, ActiveMirrors, CountsMirror, Open, Take, RecordsOf, Key, IdentityLacking, PlainIdentity;
    SameKey(s.begun[s.begun[id].parent].identity, s.begun[id].identity);
  }

  lemma RecordsMirror(s: State, p: Projector, id: string)
    requires ClosedMirror(s, p) && id in s.begun
    ensures var t := Held(s);
            && id in t.starts && id in t.terminals
            && StartMirrors(t.starts[id], id, s.begun[id], p) && TerminalMirrors(t.terminals[id], id, s.begun[id], p)
            && (s.begun[id].BegunCode? ==> t.starts[id].sequence < t.terminals[id].sequence)
  {
    hide StartMirrors, TerminalMirrors, Kept, OuterMirrors, BegunMirrors, CountsMirror, Open, Take, RecordsOf, Key;
  }

  // The terminal of a call agrees with its start in everything but perhaps the order.
  lemma PairedExactly(start: Record, terminal: Record, id: string, b: Begun, p: Projector)
    requires StartMirrors(start, id, b, p) && TerminalMirrors(terminal, id, b, p)
    ensures Paired(start, Some(terminal)) <==> start.sequence < terminal.sequence
  {}

  lemma ParentObservedExactly(s: State, p: Projector, id: string)
    requires ClosedMirror(s, p) && id in s.begun && s.begun[id].BegunCode?
    ensures s.begun[id].parent in s.begun
    ensures ParentObserved(Held(s).starts[id], Held(s).starts) <==> ChildInOrder(s, id)
  {
    hide Mirror, AllClosed, Held;
    var t := Held(s);
    var b := s.begun[id];
    EverythingTaken(s, p);
    OuterOfChild(s, p, id);
    RecordsMirror(s, p, id);
    RecordsMirror(s, p, b.parent);
    PlacedOrder(t, s.sent, b.parent, id);
    assert Said(p, b.identity.agent) == Shown(Text(b.identity.agent));
    assert Said(p, s.begun[b.parent].identity.agent) == Shown(Text(s.begun[b.parent].identity.agent));
    assert Said(p, s.begun[b.parent].identity.tool) == Shown(Text(s.begun[b.parent].identity.tool));
  }

  lemma SoundExactly(s: State, p: Projector, c: Capture)
    requires ClosedMirror(s, p) && c.issues == [] && c.records == RecordsOf(s.sent)
    ensures Sound(c) <==> NativeInOrder(s) && ChildrenInOrder(s)
  {
    hide Mirror, AllClosed, Take, StartMirrors, TerminalMirrors, ParentObserved, Paired, ChildInOrder, StartsBefore,
      ClosesAfterStart, RecordsOf, Placed, PlainRun;
    var t := Held(s);
    EverythingTaken(s, p);
    forall id | id in s.begun
      ensures SoundStart(id, t) <==>
              if s.begun[id].BegunNative? then ClosesAfterStart(s.sent, id)
              else s.begun[id].parent in s.begun && ChildInOrder(s, id)
    {
      SoundStartExactly(s, p, id);
    }
  }

  lemma SoundStartExactly(s: State, p: Projector, id: string)
    requires ClosedMirror(s, p) && id in s.begun
    ensures SoundStart(id, Held(s)) <==>
            if s.begun[id].BegunNative? then ClosesAfterStart(s.sent, id)
            else s.begun[id].parent in s.begun && ChildInOrder(s, id)
  {
    hide Mirror, AllClosed, Held, ParentObserved, Paired, ChildInOrder, StartsBefore, ClosesAfterStart, Placed,
      PlainRun, Said;
    var t := Held(s);
    EverythingTaken(s, p);
    RecordsMirror(s, p, id);
    PairedExactly(t.starts[id], t.terminals[id], id, s.begun[id], p);
    PlacedOrder(t, s.sent, id, id);
    if s.begun[id].BegunCode? { ParentObservedExactly(s, p, id); }
  }

  lemma ShownIsPublished(raw: RawField, guard: Guard)
    requires raw.Shown? && NeverRefuses(guard)
    ensures FieldStateOf(Project(raw, guard)) != Omitted
  {}

  lemma PlainIsPublished(p: Projector, x: string, reason: string)
    requires Faithful(p) && Plain(x) && Said(p, x).Shown?
    ensures FieldStateOf(IdentityField(Said(p, x), reason)) == Available
  {}

  lemma NothingOmitted(s: State, p: Projector, guard: Guard, id: string)
    requires ClosedMirror(s, p) && NeverRefuses(guard) && id in s.begun
    ensures var t := Held(s);
            id in t.starts && id in t.terminals
            && !HasOmission(Observe(id, t.starts[id], Some(t.terminals[id]), guard))
  {
    hide Mirror, AllClosed, Held, Paired, Said, Plain, IdentityField, Project, NeverRefuses, Faithful;
    var t := Held(s);
    var b := s.begun[id];
    RecordsMirror(s, p, id);
    if b.BegunCode? { OuterOfChild(s, p, id); }
    PlainIsPublished(p, b.identity.tool, TOOL_UNAVAILABLE);
    PlainIsPublished(p, b.identity.session, SESSION_UNAVAILABLE);
    PlainIsPublished(p, b.identity.agent, ACTOR_UNAVAILABLE);
    PlainIsPublished(p, b.identity.message, MESSAGE_UNAVAILABLE);
    PlainIsPublished(p, b.identity.call, CALL_UNAVAILABLE);
    ShownIsPublished(t.starts[id].input, guard);
    if b.BegunNative? {
      if t.terminals[id].outcome.Succeeded? { ShownIsPublished(t.terminals[id].result, guard); }
      else { ShownIsPublished(t.terminals[id].error, guard); }
    }
  }

  lemma EverythingObserved(s: State, p: Projector, guard: Guard, c: Capture)
    requires ClosedMirror(s, p) && NeverRefuses(guard) && c.issues == [] && c.records == RecordsOf(s.sent)
    ensures FullyObserved(c, guard)
  {
    hide Mirror, AllClosed, Take, HasOmission, Observe, RecordsOf, Placed, PlainRun, Faithful, NeverRefuses;
    EverythingTaken(s, p);
    var t := Held(s);
    forall id | id in t.starts
      ensures id in t.terminals && !HasOmission(Observe(id, t.starts[id], Lookup(t.terminals, id), guard))
    {
      NothingOmitted(s, p, guard, id);
    }
  }

  // ---------- end to end ----------

  // What a disposed run hands over: the loader's capture of everything it wrote.
  ghost function Handed(s: State, p: Projector): Capture
    requires !s.ended
  {
    Load(Bytes(Act(s, p, Dispose(true)).sent, true))
  }

  ghost predicate Undisturbed(s: State, p: Projector) {
    && Quiet(s) && AllClosed(s) && PlainRun(s.begun) && Faithful(p) && |s.sent| + 1 <= MAX_RECORDS
  }

  // A RUN WITHOUT TROUBLE, disposed after every call was closed, loads without an issue; its evidence is
  // complete exactly when every native start was written before its terminal and every Code Mode call followed
  // its hooked outer call, and otherwise it is invalid: nothing in between.
  lemma QuietRunIsComplete(p: Projector, actions: seq<Action>, guard: Guard)
    requires Runs(Setup(true), p, actions) && NoDispose(actions) && NeverRefuses(guard)
    requires Undisturbed(After(Setup(true), p, actions), p)
    ensures !After(Setup(true), p, actions).ended
    ensures var s := After(Setup(true), p, actions);
            var status := Build(Handed(s, p), guard, Completed).status;
            && Handed(s, p).issues == []
            && (status == Complete <==> NativeInOrder(s) && ChildrenInOrder(s))
            && (status == Invalid <==> !(NativeInOrder(s) && ChildrenInOrder(s)))
  {
    hide Mirror, Quiet, AllClosed, Build, Sound, FullyObserved, NativeInOrder, ChildrenInOrder, Act, Load, Faithful,
      PlainRun, NeverRefuses, RecordsOf, Setup, Runs, After, NoDispose;
    var s := After(Setup(true), p, actions);
    SetupMirrors(p);
    QuietRunMirrors(Setup(true), p, actions);
    MirrorIsOpen(s, p);
    assert ClosedMirror(s, p);
    ClosedHasNonePending(s);
    DisposedIsLoaded(s, p);
    var c := Handed(s, p);
    SoundExactly(s, p, c);
    EverythingObserved(s, p, guard, c);
    CompleteCaptureExactly(c, guard, Completed);
    InvalidIffUnsound(c, guard, Completed);
  }

  lemma MirrorIsOpen(s: State, p: Projector)
    requires Mirror(s, p)
    ensures !s.ended
  {}

  lemma ClosedHasNonePending(s: State)
    requires AllClosed(s)
    ensures s.pending == {}
  {}

  // ---------- nothing but an untroubled, undamaged run is complete ----------

  // Of a full transcript, whatever is dropped, cut off or reported by the transport: never complete.
  lemma LossyIsNeverComplete(sent: seq<Line>, received: seq<Line>, at: seq<nat>, terminated: bool,
                             issue: Option<Code>, guard: Guard, process: ProcessState)
    requires Transcript(sent) && Delivered(received, sent, at) && TransportIssue(issue)
    requires received != sent || !terminated || issue.Some?
    ensures Build(Received(Bytes(received, terminated), issue), guard, process).status != Complete
  {
    hide Build, Transcript, Delivered, Read, FinalIssues, FullyObserved, Sound;
    var c := Received(Bytes(received, terminated), issue);
    LossIsDetected(sent, received, at, terminated);
    if issue.Some? { AddNewMembers(Load(Bytes(received, terminated)).issues, issue.value); }
    LoaderReturnsLoaderCaptures(Bytes(received, terminated), issue);
    CompleteCaptureExactly(c, guard, process);
  }

  // A failure the observer counted before it stopped: never complete, whatever else happened.
  lemma TroubleIsNeverComplete(s: State, p: Projector, guard: Guard, process: ProcessState)
    requires !s.ended && (s.observerFailures > 0 || s.callbackFailures > 0)
    ensures Build(Handed(s, p), guard, process).status != Complete
  {
    hide Build, Read, FullyObserved, Sound, Transcript, Act;
    var sent := Act(s, p, Dispose(true)).sent;
    var c := Load(Bytes(sent, true));
    LastLine(s, p);
    LoaderReturnsLoaderCaptures(Bytes(sent, true), None);
    CompleteCaptureExactly(c, guard, process);
    if c.issues == [] {
      IssueFreeExactly(sent, true);
      TranscriptIsEnded(sent);
      SilentReading(sent);
    }
  }

  lemma LastLine(s: State, p: Projector)
    requires !s.ended
    ensures var sent := Act(s, p, Dispose(true)).sent;
            && sent != [] && sent[|sent| - 1].Event?
            && sent[|sent| - 1].observerFailures == Some(s.observerFailures)
            && sent[|sent| - 1].callbackFailures == Some(s.callbackFailures)
  {}

  // What is read without an issue after disposal is everything the observer ever wrote, and all of it was sent.
  lemma WholeDelivery(s: State, p: Projector, delivered: bool, received: seq<Line>, at: seq<nat>)
    requires !s.ended && Stamped(s.sent, s.sequence) && Transcript(received)
    requires Delivered(received, Act(s, p, Dispose(delivered)).sent, at)
    ensures delivered && Whole(s) && received == Act(s, p, Dispose(delivered)).sent
  {
    hide CountsMatch, RecordsOf;
    var sent, n := Act(s, p, Dispose(delivered)).sent, |received| - 1;
    assert sent[at[n]].body.EndMark?;
    assert delivered && at[n] == |s.sent| && n == s.sequence;
    forall k | 0 <= k <= n ensures k <= at[k] { AtLeastIndex(at, k); }
    if s.sent != [] { NumbersFromIndex(s.sent, s.sequence, |s.sent| - 1); }
    forall k | 0 <= k < n ensures at[k] == k {
      assert at[k] < at[n];
      NumbersFromIndex(s.sent, s.sequence, at[k]);
    }
  }

  lemma {:induction false} AtLeastIndex(at: seq<nat>, k: nat)
    requires k < |at| && forall i, j :: 0 <= i < j < |at| ==> at[i] < at[j]
    ensures k <= at[k]
  {
    if k > 0 { AtLeastIndex(at, k - 1); }
  }

  // Where every start has its terminal nothing is active any more.
  lemma ObservedIsClosed(s: State, c: Capture, guard: Guard)
    requires Booked(s) && s.pending == {} && c.issues == [] && c.records == RecordsOf(s.sent)
    requires Sound(c) && FullyObserved(c, guard)
    ensures s.nativeActive == map[] && s.codeActive == {}
  {
    hide Running, Take, RecordsOf, Placed, CallsBooked, Key, HasOmission, Observe, SoundStart;
    assert !Take([], RecordsOf(s.sent)).invalid;
    TakeIsPlaced(s.sent);
    forall id | id in s.begun ensures id in s.closed {
      EveryStartCloses(s, Take([], RecordsOf(s.sent)), id);
    }
    NothingActive(s.nativeActive, s.codeActive, s.begun, s.closed);
  }

  lemma NothingActive(active: map<string, Identity>, codeActive: set<string>, begun: map<string, Begun>,
                      closed: set<string>)
    requires ActiveBooked(active, codeActive, begun, closed) && forall id :: id in begun ==> id in closed
    ensures active == map[] && codeActive == {}
  {
    if k :| k in active.Keys { assert false; }
    if id :| id in codeActive { assert false; }
  }

  lemma EveryStartCloses(s: State, t: Intake, id: string)
    requires LinesBooked(s.sent, s.begun, {}, s.closed) && Placed(t, s.sent) && id in s.begun
    requires forall x :: x in t.starts ==> x in t.terminals
    ensures id in s.closed
  {
    var k: nat :| StartAt(s.sent, k, id);
    assert id in t.terminals;
    assert TerminalAt(s.sent, t.terminals[id].sequence, id);
  }

  lemma WholeWhenComplete(p: Projector, setup: bool, actions: seq<Action>, s: State, end: bool, received: seq<Line>,
                          at: seq<nat>, terminated: bool, issue: Option<Code>, guard: Guard, process: ProcessState)
    requires Runs(Setup(setup), p, actions) && NoDispose(actions) && s == After(Setup(setup), p, actions) && !s.ended
    requires Delivered(received, Act(s, p, Dispose(end)).sent, at) && TransportIssue(issue)
    requires Build(Received(Bytes(received, terminated), issue), guard, process).status == Complete
    ensures setup && end && terminated && issue.None? && process == Completed
    ensures received == Act(s, p, Dispose(end)).sent && Whole(s)
    ensures s.observerFailures == 0 && s.callbackFailures == 0
    ensures s.pending == {} && s.nativeActive == map[] && s.codeActive == {}
  {
    hide Build, Transcript, Delivered, Read, FullyObserved, Sound, Act, Setup, Runs, After, NoDispose, Stamped, Booked,
      Whole, Received, Load, RecordsOf;
    var c := Received(Bytes(received, terminated), issue);
    LoaderReturnsLoaderCaptures(Bytes(received, terminated), issue);
    CompleteCaptureExactly(c, guard, process);
    NothingReported(received, terminated, issue);
    SetupIsStamped(setup);
    RunIsStamped(Setup(setup), p, actions);
    WholeDelivery(s, p, end, received, at);
    WholeFromTheStart(Setup(setup), p, actions);
    SetupIsBooked();
    WholeRunIsBooked(Setup(setup), p, actions);
    CompleteIsClosed(s, p, guard, process);
  }

  lemma {:induction false} RunSnoc(s: State, p: Projector, actions: seq<Action>, last: Action)
    requires Runs(s, p, actions + [last])
    ensures Runs(s, p, actions) && Enabled(After(s, p, actions), last)
    ensures After(s, p, actions + [last]) == Act(After(s, p, actions), p, last)
    decreases |actions|
  {
    hide Act, Enabled;
    var all := actions + [last];
    if actions == [] {
      assert all[0] == last && all[1..] == [];
    } else {
      assert all[0] == actions[0] && all[1..] == actions[1..] + [last];
      RunSnoc(Act(s, p, actions[0]), p, actions[1..], last);
    }
  }

  // ONLY A WHOLE, FINISHED AND UNTROUBLED RUN IS COMPLETE: for every run up to its disposal, every thinned delivery
  // of what it sent and every transport issue, complete evidence means that no write and no line was lost, nothing
  // was cut off or reported, no failure was counted, the process finished, and no call is waiting or active.
  lemma OnlyWholeRunsAreComplete(p: Projector, setup: bool, actions: seq<Action>, end: bool, received: seq<Line>,
                                 at: seq<nat>, terminated: bool, issue: Option<Code>, guard: Guard,
                                 process: ProcessState)
    requires NoDispose(actions) && Runs(Setup(setup), p, actions + [Dispose(end)])
    requires Delivered(received, After(Setup(setup), p, actions + [Dispose(end)]).sent, at) && TransportIssue(issue)
    requires Build(Received(Bytes(received, terminated), issue), guard, process).status == Complete
    ensures setup && end && terminated && issue.None? && process == Completed
    ensures var s := After(Setup(setup), p, actions + [Dispose(end)]);
            && received == s.sent && Whole(s)
            && s.observerFailures == 0 && s.callbackFailures == 0
            && s.pending == {} && s.nativeActive == map[] && s.codeActive == {}
  {
    hide Build, Delivered, Setup, Runs, After, NoDispose, Received;
    RunSnoc(Setup(setup), p, actions, Dispose(end));
    WholeWhenComplete(p, setup, actions, After(Setup(setup), p, actions), end, received, at, terminated, issue, guard,
                      process);
  }

  lemma NothingReported(received: seq<Line>, terminated: bool, issue: Option<Code>)
    requires TransportIssue(issue) && Received(Bytes(received, terminated), issue).issues == []
    ensures issue.None? && terminated && Transcript(received)
    ensures Received(Bytes(received, terminated), issue) == Load(Bytes(received, terminated))
  {
    hide Load, Transcript;
    if issue.Some? { AddNewMembers(Load(Bytes(received, terminated)).issues, issue.value); }
    IssueFreeExactly(received, terminated);
  }

  lemma SetupIsStamped(setup: bool)
    ensures Stamped(Setup(setup).sent, Setup(setup).sequence)
    ensures |Setup(setup).sent| <= Setup(setup).sequence && (Whole(Setup(setup)) <==> setup)
  {}

  lemma CompleteIsClosed(s: State, p: Projector, guard: Guard, process: ProcessState)
    requires Booked(s) && !s.ended && Build(Handed(s, p), guard, process).status == Complete
    ensures s.observerFailures == 0 && s.callbackFailures == 0
    ensures s.pending == {} && s.nativeActive == map[] && s.codeActive == {}
  {
    hide Build, Read, FullyObserved, Sound, Transcript, Act, Booked, Running, RecordsOf;
    var c := Handed(s, p);
    BookedIsRunning(s);
    LoaderReturnsLoaderCaptures(Bytes(Act(s, p, Dispose(true)).sent, true), None);
    CompleteCaptureExactly(c, guard, process);
    if s.observerFailures > 0 || s.callbackFailures > 0 { TroubleIsNeverComplete(s, p, guard, process); }
    DisposedLoadsExactly(s, p);
    ObservedIsClosed(s, c, guard);
  }

  // ---------- a run the builder rejects ----------

  const OUTER := Identity("o", "execute", "s", "a", "m", "k")
  const CHILD := Identity("c", "bash", "s", "a", "m", "k")
  const SHOW_ALL: Projector := v => Shown(v)

  // A registered tool named `execute` runs one Code Mode tool: everything is written, in order, and closed.
  function RegisteredExecute(): seq<Action> {
    [WrappedStart(OUTER), StartWritten("o", ParentSession(None), Null, true), CodeCalled(CHILD, Null, true),
     CodeDone("c", true, true), OuterDone("s", "m", "k"), NativeDone("s", "m", "k", true, Null, true)]
  }

  lemma OuterAndChild()
    ensures Key(OUTER) == Key(CHILD) == KeyFor("s", "m", "k")
    ensures "o" != "c" && PlainIdentity(OUTER) && PlainIdentity(CHILD)
    ensures IdentityLacking(SHOW_ALL, OUTER) == 0 && IdentityLacking(SHOW_ALL, CHILD) == 0
    ensures OUTER.tool == "execute" && Faithful(SHOW_ALL)
  {}

  // The books of an untroubled observer at one point of the run.
  ghost predicate At(s: State, begun: map<string, Begun>, pending: set<string>, codeActive: set<string>,
                     active: bool, outer: bool, lines: nat)
  {
    && Quiet(s) && !s.ended && |s.sent| == lines && s.begun == begun && s.pending == pending
    && s.codeActive == codeActive
    && s.nativeActive == (if active then map[Key(OUTER) := OUTER] else map[])
    && s.activeOuter == if outer then map[Key(OUTER) := "o"] else map[]
  }

  const OUTER_ONLY: map<string, Begun> := map["o" := BegunNative(OUTER, false)]
  const BOTH: map<string, Begun> := map["o" := BegunNative(OUTER, false), "c" := BegunCode(CHILD, "o")]

  lemma OuterSteps(s: State)
    requires At(s, map[], {}, {}, false, false, 1)
    ensures Enabled(s, RegisteredExecute()[0])
    ensures var next := Act(s, SHOW_ALL, RegisteredExecute()[0]);
            At(next, OUTER_ONLY, {"o"}, {}, true, true, 1) && Enabled(next, RegisteredExecute()[1])
            && At(Act(next, SHOW_ALL, RegisteredExecute()[1]), OUTER_ONLY, {}, {}, true, true, 2)
  {}

  lemma ChildSteps(s: State)
    requires At(s, OUTER_ONLY, {}, {}, true, true, 2)
    ensures Enabled(s, RegisteredExecute()[2])
    ensures var next := Act(s, SHOW_ALL, RegisteredExecute()[2]);
            At(next, BOTH, {}, {"c"}, true, true, 3) && Enabled(next, RegisteredExecute()[3])
            && At(Act(next, SHOW_ALL, RegisteredExecute()[3]), BOTH, {}, {}, true, true, 4)
  {
    hide IdentityLacking, KeyFor, PlainIdentity, Faithful, Base;
    OuterAndChild();
  }

  lemma ClosingSteps(s: State)
    requires At(s, BOTH, {}, {}, true, true, 4)
    ensures Enabled(s, RegisteredExecute()[4])
    ensures var next := Act(s, SHOW_ALL, RegisteredExecute()[4]);
            At(next, BOTH, {}, {}, true, false, 4) && Enabled(next, RegisteredExecute()[5])
            && At(Act(next, SHOW_ALL, RegisteredExecute()[5]), BOTH, {}, {}, false, false, 5)
  {
    hide IdentityLacking, KeyFor, PlainIdentity, Faithful, Base;
    OuterAndChild();
  }

  lemma OneStep(s: State, p: Projector, actions: seq<Action>)
    requires actions != [] && Enabled(s, actions[0]) && Runs(Act(s, p, actions[0]), p, actions[1..])
    ensures Runs(s, p, actions) && After(s, p, actions) == After(Act(s, p, actions[0]), p, actions[1..])
  {}

  // From setup, the run is possible and ends with every call closed.
  ghost predicate EndsClosed(run: seq<Action>) {
    Runs(Setup(true), SHOW_ALL, run) && NoDispose(run)
    && At(After(Setup(true), SHOW_ALL, run), BOTH, {}, {}, false, false, 5)
  }

  lemma RegisteredExecuteRuns()
    ensures EndsClosed(RegisteredExecute())
  {
    hide Act, At, Enabled;
    var p, run := SHOW_ALL, RegisteredExecute();
    var s0 := Setup(true);
    SetupAt();
    OuterSteps(s0);
    var s2 := Act(Act(s0, p, run[0]), p, run[1]);
    ChildSteps(s2);
    var s4 := Act(Act(s2, p, run[2]), p, run[3]);
    ClosingSteps(s4);
    var s5 := Act(s4, p, run[4]);
    assert run[5..][1..] == [] && run[4..][1..] == run[5..] && run[3..][1..] == run[4..];
    assert run[2..][1..] == run[3..] && run[1..][1..] == run[2..];
    OneStep(s5, p, run[5..]);
    OneStep(s4, p, run[4..]);
    OneStep(Act(s2, p, run[2]), p, run[3..]);
    OneStep(s2, p, run[2..]);
    OneStep(Act(s0, p, run[0]), p, run[1..]);
    OneStep(s0, p, run);
  }

  lemma SetupAt()
    ensures At(Setup(true), map[], {}, {}, false, false, 1)
  {}

  lemma ClosedOutOfOrder(s: State)
    requires At(s, BOTH, {}, {}, false, false, 5)
    ensures Undisturbed(s, SHOW_ALL) && !s.ended && !ChildrenInOrder(s)
  {
    hide PlainIdentity, Faithful, StartsBefore, Key, Quiet;
    OuterAndChild();
    assert s.begun["c"] == BegunCode(CHILD, "o");
    assert "c" in s.begun && !ChildInOrder(s, "c");
  }

  // The run is possible, untroubled and fully closed, and its evidence is invalid all the same.
  ghost predicate RejectedAllTheSame(run: seq<Action>, guard: Guard) {
    && Runs(Setup(true), SHOW_ALL, run)
    && var s := After(Setup(true), SHOW_ALL, run);
       && !s.ended && Undisturbed(s, SHOW_ALL)
       && Build(Handed(s, SHOW_ALL), guard, Completed).status == Invalid
  }

  lemma OutOfOrderIsRejected(run: seq<Action>, guard: Guard)
    requires EndsClosed(run) && NeverRefuses(guard)
    ensures RejectedAllTheSame(run, guard)
  {
    hide Build, Load, Act, Runs, After, NoDispose, NeverRefuses, Handed, At, Undisturbed, Setup, ChildrenInOrder,
      NativeInOrder;
    ClosedOutOfOrder(After(Setup(true), SHOW_ALL, run));
    QuietRunIsComplete(SHOW_ALL, run, guard);
  }

  // THE CASE THE CONDITION SHUTS OUT: the outer call was begun by a registered tool and not by the hook.
  lemma RegisteredExecuteIsInvalid(guard: Guard)
    requires NeverRefuses(guard)
    ensures RejectedAllTheSame(RegisteredExecute(), guard)
  {
    hide EndsClosed, RejectedAllTheSame, RegisteredExecute, NeverRefuses;
    RegisteredExecuteRuns();
    OutOfOrderIsRejected(RegisteredExecute(), guard);
  }
}
