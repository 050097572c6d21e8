// What the observer's books say of any run, with or without trouble, and how a disposed run reads when none of its
// writes was lost.

module RunBooks {
  import opened Wrappers
  import opened Sequences
  import opened Vocabulary
  import opened Json
  import opened Records
  import opened Builder
  import opened Loader
  import opened LossDetection
  import opened ObserverModel
  import opened ObserverMirror

  predicate StartAt(lines: seq<Line>, k: nat, id: string) {
    k < |lines| && lines[k].Event? && lines[k].body.Data?
    && IsStart(lines[k].body.record.kind) && lines[k].body.record.id == Some(id)
  }

  predicate TerminalAt(lines: seq<Line>, k: nat, id: string) {
    k < |lines| && lines[k].Event? && lines[k].body.Data?
    && IsTerminal(lines[k].body.record.kind) && lines[k].body.record.id == Some(id)
  }

  // ---------- sequence numbers, whatever is lost ----------

  // Lines carry increasing numbers below n, and none of them ends the capture.
  predicate Stamped(lines: seq<Line>, n: nat) {
    && (forall k :: 0 <= k < |lines| ==>
          && lines[k].Event? && lines[k].sequence.Some? && 0 <= lines[k].sequence.value < n
          && !lines[k].body.EndMark?)
    && (forall j, k :: 0 <= j < k < |lines| ==> lines[j].sequence.value < lines[k].sequence.value)
  }

  lemma {:induction false} NumbersFromIndex(lines: seq<Line>, n: nat, k: nat)
    requires Stamped(lines, n) && k < |lines|
    ensures k <= lines[k].sequence.value
  {
    if k > 0 { NumbersFromIndex(lines, n, k - 1); }
  }

  lemma StampStep(s: State, p: Projector, a: Action)
    requires Enabled(s, a) && !a.Dispose? && Stamped(s.sent, s.sequence)
    ensures Stamped(Act(s, p, a).sent, Act(s, p, a).sequence)
  {
    hide IdentityLacking, KeyFor, FreshId, NativeStartRecord, CodeStartRecord, NativeTerminalRecord, CodeTerminalRecord;
  }

  // In every run, whatever the socket loses, what was sent is numbered in order.
  lemma {:induction false} RunIsStamped(s: State, p: Projector, actions: seq<Action>)
    requires Stamped(s.sent, s.sequence) && Runs(s, p, actions) && NoDispose(actions)
    ensures Stamped(After(s, p, actions).sent, After(s, p, actions).sequence)
    decreases |actions|
  {
    hide Act, Stamped, Enabled;
    if actions != [] {
      StampStep(s, p, actions[0]);
      RunIsStamped(Act(s, p, actions[0]), p, actions[1..]);
    }
  }

  // ---------- the books, when every write is delivered ----------

  predicate Whole(s: State) { |s.sent| == s.sequence }

  // The socket has lost nothing so far, and what was sent agrees with the counters.
  ghost predicate Running(s: State) {
    SentMirrors(s) && CountsMirror(RecordsOf(s.sent), |s.pending|, Totals(s))
  }

  // Calls are known by their ids; a native start not yet written is pending.
  ghost predicate CallsBooked(begun: map<string, Begun>, pending: set<string>, closed: set<string>) {
    && (forall id :: id in begun ==> begun[id].identity.id == id && id != "")
    && (forall id :: id in pending ==> id in begun && begun[id].BegunNative?)
    && closed <= begun.Keys
  }

  // What is active was begun and has not been closed.
  ghost predicate ActiveBooked(active: map<string, Identity>, codeActive: set<string>, begun: map<string, Begun>,
                               closed: set<string>)
  {
    && (forall k :: k in active ==>
          && Key(active[k]) == k && active[k].id in begun && active[k].id !in closed
          && begun[active[k].id].BegunNative? && begun[active[k].id].identity == active[k])
    && (forall id :: id in codeActive ==> id in begun && begun[id].BegunCode? && id !in closed)
  }

  // Every call begun has a start line or is pending; only closed calls have a terminal line; no call has two.
  ghost predicate LinesBooked(lines: seq<Line>, begun: map<string, Begun>, pending: set<string>, closed: set<string>) {
    && (forall id :: id in begun && id !in pending ==> exists k: nat :: StartAt(lines, k, id))
    && (forall k: nat, id :: StartAt(lines, k, id) ==> id in begun && id !in pending)
    && (forall k: nat, id :: TerminalAt(lines, k, id) ==> id in closed)
    && (forall j: nat, k: nat, id :: StartAt(lines, j, id) && StartAt(lines, k, id) ==> j == k)
    && (forall j: nat, k: nat, id :: TerminalAt(lines, j, id) && TerminalAt(lines, k, id) ==> j == k)
  }

  ghost predicate Booked(s: State) {
    && Running(s) && CallsBooked(s.begun, s.pending, s.closed)
    && ActiveBooked(s.nativeActive, s.codeActive, s.begun, s.closed)
    && LinesBooked(s.sent, s.begun, s.pending, s.closed)
  }

  lemma SetupIsRunning()
    ensures Running(Setup(true))
  {
    hide Key, KeyFor;
    var s := Setup(true);
    assert s.sent == [Event(Some(0), Some(0), Some(0), StartMark(true))];
    assert s.sent[..0] == [];
    assert RecordsOf(s.sent) == [];
  }

  lemma NothingBooked()
    ensures ActiveBooked(map[], {}, map[], {}) && CallsBooked(map[], {}, {})
    ensures LinesBooked([Event(Some(0), Some(0), Some(0), StartMark(true))], map[], {}, {})
  {
    hide Key, KeyFor;
  }

  lemma SetupIsBooked()
    ensures Booked(Setup(true))
  {
    SetupIsRunning();
    NothingBooked();
    hide Running, CallsBooked, ActiveBooked, LinesBooked;
    var s := Setup(true);
    assert s.sent == [Event(Some(0), Some(0), Some(0), StartMark(true))];
    assert s.begun == map[] && s.nativeActive == map[];
  }

  // What identifies the four records.
  lemma RecordFacts(p: Projector, b: Begun, i: Identity, sequence: nat, parent: ParentAnswer, outer: string,
                    input: Json, success: bool)
    ensures b.BegunNative? ==>
              var r := NativeStartRecord(p, b, sequence, parent, input);
              r.kind == NativeStart && r.id == Some(b.identity.id)
    ensures var r := CodeStartRecord(p, i, sequence, outer, input); r.kind == CodeStart && r.id == Some(i.id)
    ensures var r := NativeTerminalRecord(p, i, sequence, success, input);
            r.kind == NativeTerminal && r.id == Some(i.id)
    ensures var r := CodeTerminalRecord(p, i, sequence, success); r.kind == CodeTerminal && r.id == Some(i.id)
  {}

  // One line more.
  lemma LinesSnoc(lines: seq<Line>, line: Line, begun: map<string, Begun>, pending: set<string>, closed: set<string>,
                  begun': map<string, Begun>, pending': set<string>, closed': set<string>, id: string)
    requires LinesBooked(lines, begun, pending, closed) && line.Event? && line.body.Data?
    requires line.body.record.id == Some(id) && closed <= closed'
    requires IsTerminal(line.body.record.kind) ==> id in closed' && id !in closed
    requires IsStart(line.body.record.kind) ==>
               (id !in begun || id in pending) && id in begun' && id !in pending'
    requires forall x :: x in begun' && x !in pending' <==>
               (x in begun && x !in pending) || (x == id && IsStart(line.body.record.kind))
    ensures LinesBooked(lines + [line], begun', pending', closed')
  {
    var all := lines + [line];
    LinesOfSnoc(lines, line, id);
    forall x | x in begun' && x !in pending' ensures exists k: nat :: StartAt(all, k, x) {
      if x in begun && x !in pending {
        var k: nat :| StartAt(lines, k, x);
        assert StartAt(all, k, x);
      } else {
        assert StartAt(all, |lines|, x);
      }
    }
  }

  lemma LinesOfSnoc(lines: seq<Line>, line: Line, id: string)
    requires line.Event? && line.body.Data? && line.body.record.id == Some(id)
    ensures forall k: nat, x :: StartAt(lines + [line], k, x) <==>
              StartAt(lines, k, x) || (k == |lines| && x == id && IsStart(line.body.record.kind))
    ensures forall k: nat, x :: TerminalAt(lines + [line], k, x) <==>
              TerminalAt(lines, k, x) || (k == |lines| && x == id && IsTerminal(line.body.record.kind))
  {
    var all := lines + [line];
    assert all[|lines|] == line && forall k :: 0 <= k < |lines| ==> all[k] == lines[k];
  }

  lemma LinesStay(lines: seq<Line>, begun: map<string, Begun>, pending: set<string>, closed: set<string>, id: string,
                  b: Begun)
    requires LinesBooked(lines, begun, pending, closed) && id !in begun
    ensures LinesBooked(lines, begun[id := b], pending + {id}, closed)
  {}

  // ---------- one step ----------

  lemma BeginCallsBooked(begun: map<string, Begun>, pending: set<string>, closed: set<string>, i: Identity, hook: bool)
    requires CallsBooked(begun, pending, closed) && i.id !in begun && i.id != ""
    ensures i.id !in pending && i.id !in closed
    ensures CallsBooked(begun[i.id := BegunNative(i, hook)], pending + {i.id}, closed)
  {}

  lemma BeginActiveBooked(active: map<string, Identity>, codeActive: set<string>, begun: map<string, Begun>,
                          closed: set<string>, i: Identity, hook: bool)
    requires ActiveBooked(active, codeActive, begun, closed) && i.id !in begun && i.id !in closed
    ensures ActiveBooked(active[Key(i) := i], codeActive, begun[i.id := BegunNative(i, hook)], closed)
  {
    hide KeyFor;
  }

  lemma BeginKeepsBooks(s: State, p: Projector, i: Identity, hook: bool, failures: nat, overwritten: nat,
                        outer: map<string, string>)
    requires Booked(s) && FreshId(s, i.id)
    ensures Booked(BeginNative(s, p, i, hook).(observerFailures := failures, overwritten := overwritten,
                                               activeOuter := outer))
  {
    hide IdentityLacking, Key, Open, RecordsOf, LinesBooked, CallsBooked, ActiveBooked;
    BeginCallsBooked(s.begun, s.pending, s.closed, i, hook);
    BeginActiveBooked(s.nativeActive, s.codeActive, s.begun, s.closed, i, hook);
    LinesStay(s.sent, s.begun, s.pending, s.closed, i.id, BegunNative(i, hook));
  }

  lemma CloseNativeBooked(active: map<string, Identity>, codeActive: set<string>, begun: map<string, Begun>,
                          closed: set<string>, key: string)
    requires ActiveBooked(active, codeActive, begun, closed) && key in active
    ensures ActiveBooked(active - {key}, codeActive, begun, closed + {active[key].id})
    ensures active[key].id in begun && active[key].id !in closed
  {
    hide KeyFor;
  }

  lemma CodeActiveBooked(active: map<string, Identity>, codeActive: set<string>, begun: map<string, Begun>,
                         closed: set<string>, i: Identity, parent: string)
    requires ActiveBooked(active, codeActive, begun, closed) && i.id !in begun && i.id !in closed
    ensures ActiveBooked(active, codeActive + {i.id}, begun[i.id := BegunCode(i, parent)], closed)
  {
    hide Key;
  }

  lemma StartKeepsBooks(s: State, p: Projector, id: string, parent: ParentAnswer, input: Json)
    requires Booked(s) && Enabled(s, StartWritten(id, parent, input, true))
    ensures Booked(Act(s, p, StartWritten(id, parent, input, true)))
  {
    hide Key, NativeStartRecord, Take, RecordsOf, Open, LinesBooked, CountsMirror;
    var r := NativeStartRecord(p, s.begun[id], s.sequence, parent, input);
    var next := Act(s, p, StartWritten(id, parent, input, true));
    RecordFacts(p, s.begun[id], s.begun[id].identity, s.sequence, parent, "", input, true);
    var noted := s.(pending := next.pending, callbackFailures := next.callbackFailures,
                    unavailable := next.unavailable);
    assert next == Write(noted, Data(r), true);
    SentOne(noted, r, next);
    ObserverMirror.RemovedSize(s.pending, id);
    CountOne(RecordsOf(s.sent), r.(sequence := |s.sent|), |s.pending|, Totals(s), |next.pending|, Totals(next));
    LinesSnoc(s.sent, next.sent[|s.sent|], s.begun, s.pending, s.closed, s.begun, next.pending, s.closed, id);
  }

  lemma CodeStartKeepsBooks(s: State, p: Projector, i: Identity, input: Json)
    requires Booked(s) && Enabled(s, CodeCalled(i, input, true))
    ensures Booked(Act(s, p, CodeCalled(i, input, true)))
  {
    hide Key, CodeStartRecord, Take, RecordsOf, Open, LinesBooked, CountsMirror, IdentityLacking, ActiveBooked;
    if Key(i) in s.activeOuter && s.activeOuter[Key(i)] != "" {
      var parent := s.activeOuter[Key(i)];
      CodeActiveBooked(s.nativeActive, s.codeActive, s.begun, s.closed, i, parent);
      var r := CodeStartRecord(p, i, s.sequence, parent, input);
      var next := Act(s, p, CodeCalled(i, input, true));
      RecordFacts(p, BegunCode(i, parent), i, s.sequence, ParentFailed, parent, input, true);
      var noted := s.(codeStarts := next.codeStarts, codeActive := next.codeActive, unavailable := next.unavailable,
                      begun := next.begun);
      assert next == Write(noted, Data(r), true);
      SentOne(noted, r, next);
      CountOne(RecordsOf(s.sent), r.(sequence := |s.sent|), |s.pending|, Totals(s), |s.pending|, Totals(next));
      LinesSnoc(s.sent, next.sent[|s.sent|], s.begun, s.pending, s.closed, next.begun, s.pending, s.closed, i.id);
    }
  }

  lemma CodeDoneKeepsBooks(s: State, p: Projector, id: string, success: bool)
    requires Booked(s) && Enabled(s, CodeDone(id, success, true))
    ensures Booked(Act(s, p, CodeDone(id, success, true)))
  {
    hide Key, CodeTerminalRecord, Take, RecordsOf, Open, LinesBooked, CountsMirror, IdentityLacking;
    var i := s.begun[id].identity;
    var r := CodeTerminalRecord(p, i, s.sequence, success);
    var next := Act(s, p, CodeDone(id, success, true));
    RecordFacts(p, s.begun[id], i, s.sequence, ParentFailed, "", Null, success);
    var noted := s.(codeTerminals := next.codeTerminals, codeActive := next.codeActive, unavailable := next.unavailable,
                    closed := next.closed);
    assert next == Write(noted, Data(r), true);
    SentOne(noted, r, next);
    CountOne(RecordsOf(s.sent), r.(sequence := |s.sent|), |s.pending|, Totals(s), |s.pending|, Totals(next));
    LinesSnoc(s.sent, next.sent[|s.sent|], s.begun, s.pending, s.closed, s.begun, s.pending, next.closed, id);
  }

  lemma NativeDoneKeepsBooks(s: State, p: Projector, session: string, message: string, call: string, success: bool,
                             payload: Json)
    requires Booked(s) && Enabled(s, NativeDone(session, message, call, success, payload, true))
    ensures Booked(Act(s, p, NativeDone(session, message, call, success, payload, true)))
  {
    hide KeyFor, NativeTerminalRecord, Take, RecordsOf, Open, LinesBooked, CountsMirror, IdentityLacking, ActiveBooked;
    var key := KeyFor(session, message, call);
    if key in s.nativeActive {
      var i := s.nativeActive[key];
      CloseNativeBooked(s.nativeActive, s.codeActive, s.begun, s.closed, key);
      var r := NativeTerminalRecord(p, i, s.sequence, success, payload);
      var next := Act(s, p, NativeDone(session, message, call, success, payload, true));
      RecordFacts(p, s.begun[i.id], i, s.sequence, ParentFailed, "", payload, success);
      var noted := s.(nativeActive := next.nativeActive, nativeTerminals := next.nativeTerminals,
                      unavailable := next.unavailable, closed := next.closed);
      assert next == Write(noted, Data(r), true);
      SentOne(noted, r, next);
      CountOne(RecordsOf(s.sent), r.(sequence := |s.sent|), |s.pending|, Totals(s), |s.pending|, Totals(next));
      LinesSnoc(s.sent, next.sent[|s.sent|], s.begun, s.pending, s.closed, s.begun, s.pending, next.closed, i.id);
    }
  }

  // A step that loses no write keeps the books, whatever else goes wrong in it.
  lemma StepKeepsBooks(s: State, p: Projector, a: Action)
    requires Enabled(s, a) && !a.Dispose? && Booked(s) && Whole(Act(s, p, a))
    ensures Booked(Act(s, p, a))
  {
    hide Booked, IdentityLacking, KeyFor, FreshId, NativeStartRecord, CodeStartRecord, NativeTerminalRecord,
      CodeTerminalRecord;
    BookedIsWhole(s);
    match a
    case WrappedStart(i) =>
      var next := Act(s, p, a);
      BeginKeepsBooks(s, p, i, false, next.observerFailures, next.overwritten, next.activeOuter);
    case HookStart(i) =>
      if Key(i) in s.nativeActive {
        SameBooks(s, Act(s, p, a));
      } else {
        BeginKeepsBooks(s, p, i, true, s.observerFailures, s.overwritten, s.activeOuter[Key(i) := i.id]);
      }
    case StartWritten(id, parent, input, delivered) => StartKeepsBooks(s, p, id, parent, input);
    case CodeCalled(i, input, delivered) =>
      if Key(i) in s.activeOuter && s.activeOuter[Key(i)] != "" { CodeStartKeepsBooks(s, p, i, input); }
    case CodeDone(id, success, delivered) => CodeDoneKeepsBooks(s, p, id, success);
    case NativeDone(session, message, call, success, payload, delivered) =>
      if KeyFor(session, message, call) in s.nativeActive {
        NativeDoneKeepsBooks(s, p, session, message, call, success, payload);
      }
    case OuterDone(session, message, call) => SameBooks(s, Act(s, p, a));
    case MalformedCallback => SameBooks(s, Act(s, p, a));
    case SubscriptionFailed => SameBooks(s, Act(s, p, a));
    case SocketError => SameBooks(s, Act(s, p, a));
    case Dispose(delivered) =>
  }

  lemma BookedIsWhole(s: State)
    requires Booked(s)
    ensures Whole(s) && !s.ended && |s.sent| <= s.sequence
  {}

  lemma SameBooks(s: State, next: State)
    requires Booked(s)
    requires next == s.(activeOuter := next.activeOuter, observerFailures := next.observerFailures,
                        callbackFailures := next.callbackFailures)
    ensures Booked(next)
  {
    hide RecordsOf, Open, Key;
  }

  // A lost write is never made up for.
  lemma LostBefore(s: State, p: Projector, a: Action)
    requires Enabled(s, a) && |s.sent| <= s.sequence
    ensures |Act(s, p, a).sent| <= Act(s, p, a).sequence
    ensures Whole(Act(s, p, a)) ==> Whole(s)
  {
    hide IdentityLacking, KeyFor, FreshId, NativeStartRecord, CodeStartRecord, NativeTerminalRecord, CodeTerminalRecord;
  }

  lemma {:induction false} WholeFromTheStart(s: State, p: Projector, actions: seq<Action>)
    requires Runs(s, p, actions) && |s.sent| <= s.sequence
    ensures |After(s, p, actions).sent| <= After(s, p, actions).sequence
    ensures Whole(After(s, p, actions)) ==> Whole(s)
    decreases |actions|
  {
    hide Act, Enabled, Whole;
    if actions != [] {
      LostBefore(s, p, actions[0]);
      WholeFromTheStart(Act(s, p, actions[0]), p, actions[1..]);
    }
  }

  // AFTER ANY RUN THAT LOST NO WRITE the books and the lines agree, whatever failed.
  lemma {:induction false} WholeRunIsBooked(s: State, p: Projector, actions: seq<Action>)
    requires Booked(s) && Runs(s, p, actions) && NoDispose(actions) && Whole(After(s, p, actions))
    ensures Booked(After(s, p, actions))
    decreases |actions|
  {
    hide Act, Enabled, Booked, Whole;
    if actions != [] {
      var next := Act(s, p, actions[0]);
      BookedIsWhole(s);
      LostBefore(s, p, actions[0]);
      WholeFromTheStart(next, p, actions[1..]);
      StepKeepsBooks(s, p, actions[0]);
      WholeRunIsBooked(next, p, actions[1..]);
    }
  }

  // ---------- disposal ----------

  // The disposed stream is a transcript exactly when no start is pending.
  lemma DisposedTranscript(s: State, p: Projector)
    requires Running(s)
    ensures var done := Act(s, p, Dispose(true)).sent;
            && Ended(done) && |done| == |s.sent| + 1 && RecordsOf(done) == RecordsOf(s.sent)
            && done[|done| - 1].observerFailures == Some(s.observerFailures)
            && done[|done| - 1].callbackFailures == Some(s.callbackFailures)
            && (Transcript(done) <==> s.pending == {})
            && (CountsMatch(done[|done| - 1].body.counts.value, RecordsOf(done)) <==> s.pending == {})
  {
    hide Open, GoodData, CountKind;
    var done := Act(s, p, Dispose(true)).sent;
    assert done == s.sent + [done[|done| - 1]];
    assert done[..|done| - 1] == s.sent;
    assert done[|done| - 1].body.counts == Some(Totals(s));
    assert RecordsOf(done) == RecordsOf(s.sent);
    assert |s.pending| == 0 <==> s.pending == {};
    TranscriptIsEnded(done);
  }

  lemma LoneIssue(c: Code)
    ensures Dedupe([c]) == [c]
  {}

  // A run that lost no write, disposed: loaded without an issue exactly when no start is pending and the record
  // limit is kept; within the limit a pending start is reported as a count mismatch.
  lemma DisposedLoadsExactly(s: State, p: Projector)
    requires Running(s)
    ensures var c := Load(Bytes(Act(s, p, Dispose(true)).sent, true));
            && (c.issues == [] <==> s.pending == {} && |s.sent| + 1 <= MAX_RECORDS)
            && (|s.sent| + 1 <= MAX_RECORDS && s.pending != {} ==> c.issues == [CountMismatch])
            && (|s.sent| + 1 <= MAX_RECORDS ==>
                  && c.started && c.ended && c.records == RecordsOf(s.sent)
                  && c.observerFailures == Some(s.observerFailures)
                  && c.callbackFailures == Some(s.callbackFailures))
  {
    hide Open, Read, RecordsOf, Transcript, CountsMatch, Act, CountsMirror;
    var done := Act(s, p, Dispose(true)).sent;
    DisposedTranscript(s, p);
    IssueFreeExactly(done, true);
    SilentReading(done);
    LoneIssue(CountMismatch);
  }

  lemma RunLoadsExactly(p: Projector, actions: seq<Action>)
    requires Runs(Setup(true), p, actions) && NoDispose(actions) && Whole(After(Setup(true), p, actions))
    ensures var s := After(Setup(true), p, actions);
            && !s.ended
            && var c := Load(Bytes(Act(s, p, Dispose(true)).sent, true));
               && (c.issues == [] <==> s.pending == {} && |s.sent| + 1 <= MAX_RECORDS)
               && (|s.sent| + 1 <= MAX_RECORDS && s.pending != {} ==> c.issues == [CountMismatch])
               && (|s.sent| + 1 <= MAX_RECORDS ==>
                     && c.observerFailures == Some(s.observerFailures)
                     && c.callbackFailures == Some(s.callbackFailures))
  {
    hide Act, Load, Setup, Runs, After, NoDispose, Whole, Running;
    SetupIsBooked();
    WholeRunIsBooked(Setup(true), p, actions);
    BookedIsWhole(After(Setup(true), p, actions));
    BookedIsRunning(After(Setup(true), p, actions));
    DisposedLoadsExactly(After(Setup(true), p, actions), p);
  }

  lemma BookedIsRunning(s: State)
    requires Booked(s)
    ensures Running(s)
  {}
}
