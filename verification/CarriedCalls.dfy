// One native call from the callbacks that report it to the observation that is published: nothing of it is changed or
// mixed up on the way.

module CarriedCalls {
  import opened Wrappers
  import opened Vocabulary
  import opened Json
  import opened Records
  import opened Evidence
  import opened Builder
  import opened IntakeFacts
  import opened Loader
  import opened LossDetection
  import opened ObserverModel
  import opened ObserverMirror
  import opened RunBooks
  import opened QuietRuns
  import opened PublishedFields

  // ---------- runs in parts ----------

  lemma {:induction false} RunConcat(s: State, p: Projector, a: seq<Action>, b: seq<Action>)
    requires Runs(s, p, a + b)
    ensures Runs(s, p, a) && Runs(After(s, p, a), p, b)
    ensures After(s, p, a + b) == After(After(s, p, a), p, b)
    decreases |a|
  {
    hide Act, Enabled;
    if a == [] {
      assert a + b == b;
    } else {
      assert (a + b)[0] == a[0] && (a + b)[1..] == a[1..] + b;
      RunConcat(Act(s, p, a[0]), p, a[1..], b);
    }
  }

  // Lines stay sent and calls stay begun as they were.
  ghost predicate Grows(s: State, next: State) {
    s.sent <= next.sent && forall id :: id in s.begun ==> id in next.begun && next.begun[id] == s.begun[id]
  }

  lemma StepGrows(s: State, p: Projector, a: Action)
    requires Enabled(s, a)
    ensures Grows(s, Act(s, p, a))
  {
    hide IdentityLacking, KeyFor, NativeStartRecord, CodeStartRecord, NativeTerminalRecord, CodeTerminalRecord;
  }

  lemma {:induction false} RunGrows(s: State, p: Projector, actions: seq<Action>)
    requires Runs(s, p, actions)
    ensures Grows(s, After(s, p, actions))
    decreases |actions|
  {
    hide Act, Enabled;
    if actions != [] {
      StepGrows(s, p, actions[0]);
      RunGrows(Act(s, p, actions[0]), p, actions[1..]);
    }
  }

  // Every beginning of a run that lost no write is booked.
  lemma PartIsBooked(p: Projector, a: seq<Action>, b: seq<Action>)
    requires Runs(Setup(true), p, a + b) && NoDispose(a + b) && Whole(After(Setup(true), p, a + b))
    ensures Runs(Setup(true), p, a) && Booked(After(Setup(true), p, a))
    ensures Runs(After(Setup(true), p, a), p, b)
    ensures After(Setup(true), p, a + b) == After(After(Setup(true), p, a), p, b)
  {
    hide Setup, Runs, After, Whole, Booked;
    RunConcat(Setup(true), p, a, b);
    assert forall k :: 0 <= k < |a| ==> (a + b)[k] == a[k];
    SetupIsStamped(true);
    WholeFromTheStart(Setup(true), p, a);
    WholeFromTheStart(After(Setup(true), p, a), p, b);
    SetupIsBooked();
    WholeRunIsBooked(Setup(true), p, a);
  }

  // ---------- what the intake keeps of the lines ----------

  ghost predicate TakenFrom(t: Intake, lines: seq<Line>) {
    && (forall x :: x in t.seen ==> 0 <= x < |lines|)
    && (forall id :: id in t.starts ==> exists k: nat :: StartAt(lines, k, id))
    && (forall id :: id in t.terminals ==> exists k: nat :: TerminalAt(lines, k, id))
  }

  lemma StillAt(lines: seq<Line>, line: Line)
    ensures forall k: nat, id :: StartAt(lines, k, id) ==> StartAt(lines + [line], k, id)
    ensures forall k: nat, id :: TerminalAt(lines, k, id) ==> TerminalAt(lines + [line], k, id)
  {}

  lemma LastRecord(lines: seq<Line>)
    requires lines != []
    ensures var rs, n := RecordsOf(lines), |lines| - 1;
            if lines[n].Event? && lines[n].body.Data? then
              && rs != [] && rs[|rs| - 1] == lines[n].body.record.(sequence := n)
              && rs[..|rs| - 1] == RecordsOf(lines[..n])
            else rs == RecordsOf(lines[..n])
  {}

  lemma LastTaken(lines: seq<Line>)
    requires lines != []
    ensures var n := |lines| - 1;
            Take([], RecordsOf(lines))
            == if lines[n].Event? && lines[n].body.Data? then
                 TakeOne(Take([], RecordsOf(lines[..n])), lines[n].body.record.(sequence := n))
               else Take([], RecordsOf(lines[..n]))
  {
    hide RecordsOf, TakeOne;
    LastRecord(lines);
  }

  lemma {:induction false} TakeIsFrom(lines: seq<Line>)
    ensures TakenFrom(Take([], RecordsOf(lines)), lines)
  {
    if lines == [] {
      NothingTaken();
    } else {
      hide Take, RecordsOf, TakeOne, StartAt, TerminalAt;
      var front, last := lines[..|lines| - 1], lines[|lines| - 1];
      TakeIsFrom(front);
      LastTaken(lines);
      StillAt(front, last);
      assert lines == front + [last];
      if last.Event? && last.body.Data? { TakeOneIsFrom(Take([], RecordsOf(front)), lines); }
    }
  }

  lemma NothingTaken()
    ensures TakenFrom(Take([], RecordsOf([])), [])
  {}

  lemma TakeOneIsFrom(t: Intake, lines: seq<Line>)
    requires lines != [] && lines[|lines| - 1].Event? && lines[|lines| - 1].body.Data?
    requires TakenFrom(t, lines[..|lines| - 1])
    ensures TakenFrom(TakeOne(t, lines[|lines| - 1].body.record.(sequence := |lines| - 1)), lines)
  {
    var n := |lines| - 1;
    var r := lines[n].body.record.(sequence := n);
    StillAt(lines[..n], lines[n]);
    assert lines == lines[..n] + [lines[n]];
    assert NonEmpty(r.id) && IsStart(r.kind) ==> StartAt(lines, n, r.id.value);
    assert NonEmpty(r.id) && IsTerminal(r.kind) ==> TerminalAt(lines, n, r.id.value);
  }

  predicate NoStartBefore(lines: seq<Line>, k: nat, id: string) {
    forall j: nat :: j < k ==> !StartAt(lines, j, id)
  }

  predicate NoTerminalBefore(lines: seq<Line>, k: nat, id: string) {
    forall j: nat :: j < k ==> !TerminalAt(lines, j, id)
  }

  // The first start and the first terminal of a call are the ones the intake keeps.
  lemma {:induction false} FirstStartIsKept(lines: seq<Line>, k: nat, id: string)
    requires id != "" && StartAt(lines, k, id) && NoStartBefore(lines, k, id)
    ensures var t := Take([], RecordsOf(lines));
            id in t.starts && t.starts[id] == lines[k].body.record.(sequence := k)
  {
    hide RecordsOf;
    var n := |lines| - 1;
    var front, last := lines[..n], lines[n];
    TakeIsFrom(front);
    LastTaken(lines);
    StillAt(front, last);
    assert lines == front + [last];
    if k < n {
      assert front[k] == lines[k];
      FirstStartIsKept(front, k, id);
    }
  }

  lemma {:induction false} FirstTerminalIsKept(lines: seq<Line>, k: nat, id: string)
    requires id != "" && TerminalAt(lines, k, id) && NoTerminalBefore(lines, k, id)
    ensures var t := Take([], RecordsOf(lines));
            id in t.terminals && t.terminals[id] == lines[k].body.record.(sequence := k)
  {
    hide RecordsOf;
    var n := |lines| - 1;
    var front, last := lines[..n], lines[n];
    TakeIsFrom(front);
    LastTaken(lines);
    StillAt(front, last);
    assert lines == front + [last];
    if k < n {
      assert front[k] == lines[k];
      FirstTerminalIsKept(front, k, id);
    }
  }

  // ---------- the start and the terminal of one call ----------

  lemma StartLine(s: State, p: Projector, id: string, parent: ParentAnswer, input: Json)
    requires Booked(s) && Enabled(s, StartWritten(id, parent, input, true))
    ensures var next := Act(s, p, StartWritten(id, parent, input, true));
            && |next.sent| == |s.sent| + 1 && StartAt(next.sent, |s.sent|, id)
            && next.sent[|s.sent|].body.record == NativeStartRecord(p, s.begun[id], s.sequence, parent, input)
  {
    hide LinesBooked, ActiveBooked, NativeStartRecord, Open, Take, RecordsOf;
    RecordFacts(p, s.begun[id], s.begun[id].identity, s.sequence, parent, "", input, true);
  }

  lemma TerminalLine(s: State, p: Projector, session: string, message: string, call: string, success: bool,
                     payload: Json)
    requires Booked(s) && KeyFor(session, message, call) in s.nativeActive
    ensures var i := s.nativeActive[KeyFor(session, message, call)];
            var next := Act(s, p, NativeDone(session, message, call, success, payload, true));
            && |next.sent| == |s.sent| + 1 && TerminalAt(next.sent, |s.sent|, i.id)
            && next.sent[|s.sent|].body.record == NativeTerminalRecord(p, i, s.sequence, success, payload)
            && i.id in s.begun && s.begun[i.id].BegunNative? && s.begun[i.id].identity == i
  {
    hide LinesBooked, NativeTerminalRecord, Open, Take, RecordsOf, KeyFor;
    var i := s.nativeActive[KeyFor(session, message, call)];
    RecordFacts(p, s.begun[i.id], i, s.sequence, ParentFailed, "", payload, success);
  }

  lemma LineStays(lines: seq<Line>, more: seq<Line>, k: nat, id: string)
    requires lines <= more && k < |lines|
    ensures more[k] == lines[k]
    ensures StartAt(lines, k, id) ==> StartAt(more, k, id)
    ensures TerminalAt(lines, k, id) ==> TerminalAt(more, k, id)
  {}

  lemma OnlyStartIsKept(s: State, k: nat, id: string)
    requires Booked(s) && id != "" && StartAt(s.sent, k, id)
    ensures id in Held(s).starts && Held(s).starts[id] == s.sent[k].body.record.(sequence := k)
  {
    hide Running, Take, RecordsOf;
    FirstStartIsKept(s.sent, k, id);
  }

  lemma OnlyTerminalIsKept(s: State, k: nat, id: string)
    requires Booked(s) && id != "" && TerminalAt(s.sent, k, id)
    ensures id in Held(s).terminals && Held(s).terminals[id] == s.sent[k].body.record.(sequence := k)
  {
    hide Running, Take, RecordsOf;
    FirstTerminalIsKept(s.sent, k, id);
  }

  // ---------- what is published of it ----------

  // The session parent, as the plugin host answered.
  predicate ParentAsAnswered(p: ParentField, answer: ParentAnswer) {
    match answer
    case ParentSession(Some(id)) => p == if id != "" then ParentIs(Session, id) else NoParent
    case ParentSession(None) => p == NoParent
    case ParentFailed => p == ParentWithheld(Omitted, "session_parent_unavailable")
  }

  // A native call as it was reported: its identity, parent and input at the start, its outcome and payload at the end.
  ghost predicate AsReported(o: Observation, p: Projector, guard: Guard, i: Identity, answer: ParentAnswer,
                             input: Json, success: bool, payload: Json)
  {
    && o.id == i.id && o.mode == Native
    && Identifies(o.tool, Said(p, i.tool), TOOL_UNAVAILABLE)
    && Identifies(o.actor, Said(p, i.agent), ACTOR_UNAVAILABLE)
    && Identifies(o.sessionId, Said(p, i.session), SESSION_UNAVAILABLE)
    && Identifies(o.messageId, Said(p, i.message), MESSAGE_UNAVAILABLE)
    && Identifies(o.callId, Said(p, i.call), CALL_UNAVAILABLE)
    && ParentAsAnswered(o.parent, answer) && Publishes(o.input, p(input), guard)
    && o.outcome == (if success then Outcome.Success else Error)
    && Publishes(if success then o.result else o.error, p(payload), guard)
    && (if success then o.error else o.result) == Withheld(Omitted, NOT_APPLICABLE)
  }

  lemma RecordsSay(o: Observation, p: Projector, guard: Guard, b: Begun, m: nat, n: nat, mm: nat, nn: nat,
                   answer: ParentAnswer, input: Json, success: bool, payload: Json)
    requires b.BegunNative? && o.id == b.identity.id && m < n
    requires var start := NativeStartRecord(p, b, mm, answer, input).(sequence := m);
             var end := NativeTerminalRecord(p, b.identity, nn, success, payload).(sequence := n);
             SaysStart(o, start, guard) && SaysEnd(o, start, Some(end), guard)
    ensures AsReported(o, p, guard, b.identity, answer, input, success, payload)
  {
    hide Publishes, Identifies;
    var start := NativeStartRecord(p, b, mm, answer, input).(sequence := m);
    assert Descends(o.parent, start);
    if answer.ParentSession? && answer.parent.Some? && answer.parent.value != "" {
      assert start.parentSession == Shown(Text(answer.parent.value));
    }
  }

  // The capture of a whole run holds what the observer's lines hold.
  lemma HandedHolds(s: State, p: Projector)
    requires Booked(s) && !s.ended && |s.sent| + 1 <= MAX_RECORDS
    ensures var c := Handed(s, p);
            var t := Take(c.issues, c.records);
            t.starts == Held(s).starts && t.terminals == Held(s).terminals
  {
    hide Running, RecordsOf, Take, Act, Load;
    BookedIsRunning(s);
    DisposedLoadsExactly(s, p);
    KeptWhateverTheIssues(Handed(s, p).issues, Handed(s, p).records);
  }

  lemma CallInRecords(s: State, p: Projector, guard: Guard, process: ProcessState, b: Begun, m: nat, n: nat, mm: nat,
                      nn: nat, answer: ParentAnswer, input: Json, success: bool, payload: Json)
    requires Booked(s) && !s.ended && |s.sent| + 1 <= MAX_RECORDS
    requires b.BegunNative? && b.identity.id != "" && m < n
    requires StartAt(s.sent, m, b.identity.id) && TerminalAt(s.sent, n, b.identity.id)
    requires s.sent[m].body.record == NativeStartRecord(p, b, mm, answer, input)
    requires s.sent[n].body.record == NativeTerminalRecord(p, b.identity, nn, success, payload)
    ensures exists o :: o in Build(Handed(s, p), guard, process).observations
                        && AsReported(o, p, guard, b.identity, answer, input, success, payload)
  {
    hide Booked, Take, Build, NativeStartRecord, NativeTerminalRecord, SaysStart, SaysEnd, Handed, AsReported, StartAt,
      TerminalAt, Held;
    var id, c := b.identity.id, Handed(s, p);
    OnlyStartIsKept(s, m, id);
    OnlyTerminalIsKept(s, n, id);
    HandedHolds(s, p);
    EveryCallIsPublished(c, guard, process);
    var os := Build(c, guard, process).observations;
    var k :| 0 <= k < |os| && os[k].id == id;
    RecordsSay(os[k], p, guard, b, m, n, mm, nn, answer, input, success, payload);
    assert os[k] in os;
  }

  // FROM THE CALLBACKS TO THE EVIDENCE: in any run that lost no write, whatever else failed in it, a native call whose
  // start was written and which was closed later is published as it was reported.
  lemma CallIsPublished(p: Projector, first: seq<Action>, id: string, answer: ParentAnswer, input: Json,
                        second: seq<Action>, session: string, message: string, call: string, success: bool,
                        payload: Json, third: seq<Action>, guard: Guard, process: ProcessState)
    requires var run := first + [StartWritten(id, answer, input, true)] + second
                        + [NativeDone(session, message, call, success, payload, true)] + third;
             && Runs(Setup(true), p, run) && NoDispose(run)
             && Whole(After(Setup(true), p, run)) && |After(Setup(true), p, run).sent| + 1 <= MAX_RECORDS
    requires var begun := first + [StartWritten(id, answer, input, true)] + second;
             Runs(Setup(true), p, begun) && KeyFor(session, message, call) in After(Setup(true), p, begun).nativeActive
             && After(Setup(true), p, begun).nativeActive[KeyFor(session, message, call)].id == id
    ensures var run := first + [StartWritten(id, answer, input, true)] + second
                       + [NativeDone(session, message, call, success, payload, true)] + third;
            var s := After(Setup(true), p, run);
            && !s.ended && id in s.begun
            && exists o :: o in Build(Handed(s, p), guard, process).observations
                           && AsReported(o, p, guard, s.begun[id].identity, answer, input, success, payload)
  {
    hide Booked, Act, Runs, After, Whole, Build, Handed, NativeStartRecord, NativeTerminalRecord, AsReported, Setup,
      NoDispose, StartAt, TerminalAt, KeyFor, Enabled;
    var start := StartWritten(id, answer, input, true);
    var done := NativeDone(session, message, call, success, payload, true);
    var run := first + [start] + second + [done] + third;
    assert run == first + ([start] + second + [done] + third);
    PartIsBooked(p, first, [start] + second + [done] + third);
    assert run == (first + [start]) + (second + [done] + third);
    PartIsBooked(p, first + [start], second + [done] + third);
    assert run == (first + [start] + second) + ([done] + third);
    PartIsBooked(p, first + [start] + second, [done] + third);
    PartIsBooked(p, first + [start] + second + [done], third);
    assert run + [] == run;
    PartIsBooked(p, run, []);
    var s0, s1 := After(Setup(true), p, first), After(Setup(true), p, first + [start]);
    var s2 := After(Setup(true), p, first + [start] + second);
    var s3, s := After(Setup(true), p, first + [start] + second + [done]), After(Setup(true), p, run);
    RunSnoc(Setup(true), p, first, start);
    RunSnoc(Setup(true), p, first + [start] + second, done);
    RunConcat(Setup(true), p, first + [start], second);
    StartLine(s0, p, id, answer, input);
    TerminalLine(s2, p, session, message, call, success, payload);
    RunGrows(s1, p, second);
    StepGrows(s0, p, start);
    StepGrows(s2, p, done);
    RunGrows(s3, p, third);
    LineStays(s1.sent, s2.sent, |s0.sent|, id);
    LineStays(s2.sent, s3.sent, |s0.sent|, id);
    LineStays(s3.sent, s.sent, |s0.sent|, id);
    LineStays(s3.sent, s.sent, |s2.sent|, id);
    StartedId(s0, id, answer, input);
    BookedIsWhole(s);
    CallInRecords(s, p, guard, process, s0.begun[id], |s0.sent|, |s2.sent|, s0.sequence, s2.sequence, answer, input,
                  success, payload);
  }

  lemma StartedId(s: State, id: string, answer: ParentAnswer, input: Json)
    requires Booked(s) && Enabled(s, StartWritten(id, answer, input, true))
    ensures id in s.begun && s.begun[id].BegunNative? && s.begun[id].identity.id == id && id != ""
  {}
}
