// The in-process observer (container/native_observer.ts): counters, the maps of active calls, and the records
// it writes. One action is what happens between two suspension points of a callback.

module ObserverModel {
  import opened Wrappers
  import opened Json
  import opened Records
  import opened Loader

  datatype Identity = Identity(id: string, tool: string, session: string, agent: string, message: string, call: string)

  // `identityKey`
  function KeyFor(session: string, message: string, call: string): string {
    session + "\0" + message + "\0" + call
  }

  function Key(i: Identity): string { KeyFor(i.session, i.message, i.call) }

  // How a call was begun. `hook` tells the execute.before hook from a wrapped tool.
  datatype Begun =
    | BegunNative(identity: Identity, hook: bool)
    | BegunCode(identity: Identity, parent: string)

  // `project`: the value itself, or why it is withheld.
  type Projector = Json -> RawField

  // `overwritten`, `begun` and `closed` are history: overwritten keys, every call begun, every id closed.
  datatype State = State(
    sequence: nat, nativeStarts: nat, nativeTerminals: nat, codeStarts: nat, codeTerminals: nat,
    observerFailures: nat, callbackFailures: nat, unavailable: nat,
    nativeActive: map<string, Identity>, activeOuter: map<string, string>,
    pending: set<string>, codeActive: set<string>, ended: bool, sent: seq<Line>,
    overwritten: nat, begun: map<string, Begun>, closed: set<string>)

  datatype ParentAnswer = ParentSession(parent: Option<string>) | ParentFailed

  datatype Action =
    | WrappedStart(identity: Identity)
    | HookStart(identity: Identity)
    | StartWritten(id: string, parent: ParentAnswer, input: Json, delivered: bool)
    | OuterDone(session: string, message: string, call: string)
    | CodeCalled(identity: Identity, input: Json, delivered: bool)
    | CodeDone(id: string, success: bool, delivered: bool)
    | NativeDone(session: string, message: string, call: string, success: bool, payload: Json, delivered: bool)
    | MalformedCallback
    | SubscriptionFailed
    | SocketError
    | Dispose(delivered: bool)

  // ---------- what is written ----------

  const NOTHING := Misshapen(Null)

  function Lacking(f: RawField): nat { if f.Shown? then 0 else 1 }

  function Said(p: Projector, s: string): RawField { p(Text(s)) }

  function IdentityLacking(p: Projector, i: Identity): nat {
    Lacking(Said(p, i.tool)) + Lacking(Said(p, i.session)) + Lacking(Said(p, i.agent))
    + Lacking(Said(p, i.message)) + Lacking(Said(p, i.call))
  }

  function Base(p: Projector, kind: RecordKind, i: Identity, sequence: nat, boundary: Label): Record {
    Record(kind, Some(i.id), sequence, Said(p, i.tool), Said(p, i.agent), Said(p, i.session), Said(p, i.message),
           Said(p, i.call), None, NOTHING, NOTHING, OtherOutcome, NOTHING, NOTHING, boundary)
  }

  function ParentFieldFor(answer: ParentAnswer): RawField {
    match answer
    case ParentSession(None) => Shown(Null)
    case ParentSession(Some(id)) => if id == "" then Shown(Null) else Shown(Text(id))
    case ParentFailed => Hidden(HideOmitted, "session_parent_unavailable", true)
  }

  function NativeStartRecord(p: Projector, b: Begun, sequence: nat, parent: ParentAnswer, input: Json): Record
    requires b.BegunNative?
  {
    Base(p, NativeStart, b.identity, sequence, if b.hook then ExecuteBefore else DecodedExecute).(
      parentSession := ParentFieldFor(parent), input := p(input))
  }

  function CodeStartRecord(p: Projector, i: Identity, sequence: nat, parent: string, input: Json): Record {
    Base(p, CodeStart, i, sequence, DecodedCode).(parentInvocation := Some(parent), input := p(input))
  }

  function NativeTerminalRecord(p: Projector, i: Identity, sequence: nat, success: bool, payload: Json): Record {
    var base := Base(p, NativeTerminal, i, sequence, if success then SessionSuccess else SessionFailed);
    if success then base.(outcome := Succeeded, result := p(payload))
    else base.(outcome := Failed, error := p(payload))
  }

  function CodeTerminalRecord(p: Projector, i: Identity, sequence: nat, success: bool): Record {
    Base(p, CodeTerminal, i, sequence, if success then HandlerReturn else HandlerThrow).(
      outcome := if success then Succeeded else Failed)
  }

  // `write`: the sequence number is spent whether or not the socket takes the record.
  function Write(s: State, body: Body, delivered: bool): State {
    var event := Event(Some(s.sequence), Some(s.observerFailures), Some(s.callbackFailures), body);
    s.(sequence := s.sequence + 1,
       sent := if delivered then s.sent + [event] else s.sent,
       observerFailures := if delivered then s.observerFailures else s.observerFailures + 1)
  }

  function Totals(s: State): EndCounts {
    EndCounts(s.nativeStarts, s.nativeTerminals, s.codeStarts, s.codeTerminals, s.unavailable)
  }

  // Setup: nothing counted, and the capture start is written.
  function Setup(delivered: bool): State {
    Write(State(0, 0, 0, 0, 0, 0, 0, 0, map[], map[], {}, {}, false, [], 0, map[], {}), StartMark(true), delivered)
  }

  // ---------- actions ----------

  // Invocation ids are random and therefore new; their form is fixed and short.
  predicate FreshId(s: State, id: string) {
    id !in s.begun && id != "" && |id| <= 256
  }

  predicate Enabled(s: State, a: Action) {
    match a
    case WrappedStart(i) => FreshId(s, i.id)
    case HookStart(i) => FreshId(s, i.id) && i.tool == "execute"
    case StartWritten(id, _, _, _) => id in s.pending && id in s.begun && s.begun[id].BegunNative?
    case CodeCalled(i, _, _) => FreshId(s, i.id)
    case CodeDone(id, _, _) => id in s.codeActive && id in s.begun && s.begun[id].BegunCode?
    case Dispose(_) => !s.ended
    case _ => true
  }

  function BeginNative(s: State, p: Projector, i: Identity, hook: bool): State {
    s.(nativeStarts := s.nativeStarts + 1,
       nativeActive := s.nativeActive[Key(i) := i],
       pending := s.pending + {i.id},
       unavailable := s.unavailable + IdentityLacking(p, i),
       begun := s.begun[i.id := BegunNative(i, hook)])
  }

  function Act(s: State, p: Projector, a: Action): State
    requires Enabled(s, a)
  {
    match a
    case WrappedStart(i) =>
      var clash := Key(i) in s.nativeActive;
      var b := BeginNative(s, p, i, false);
      b.(observerFailures := if clash then s.observerFailures + 1 else s.observerFailures,
         overwritten := if clash then s.overwritten + 1 else s.overwritten,
         activeOuter := if i.tool == "execute" then s.activeOuter[Key(i) := i.id] else s.activeOuter)
    case HookStart(i) =>
      if Key(i) in s.nativeActive then s.(activeOuter := s.activeOuter[Key(i) := s.nativeActive[Key(i)].id])
      else BeginNative(s, p, i, true).(activeOuter := s.activeOuter[Key(i) := i.id])
    case StartWritten(id, parent, input, delivered) =>
      var failed := parent.ParentFailed?;
      var noted := s.(
        pending := s.pending - {id},
        callbackFailures := if failed then s.callbackFailures + 1 else s.callbackFailures,
        unavailable := s.unavailable + (if failed then 1 else 0) + Lacking(p(input)));
      Write(noted, Data(NativeStartRecord(p, s.begun[id], s.sequence, parent, input)), delivered)
    case OuterDone(session, message, call) => s.(activeOuter := s.activeOuter - {KeyFor(session, message, call)})
    case CodeCalled(i, input, delivered) =>
      if Key(i) !in s.activeOuter || s.activeOuter[Key(i)] == "" then s
      else
        var parent := s.activeOuter[Key(i)];
        var noted := s.(
          codeStarts := s.codeStarts + 1, codeActive := s.codeActive + {i.id},
          unavailable := s.unavailable + IdentityLacking(p, i) + Lacking(p(input)),
          begun := s.begun[i.id := BegunCode(i, parent)]);
        Write(noted, Data(CodeStartRecord(p, i, s.sequence, parent, input)), delivered)
    case CodeDone(id, success, delivered) =>
      var i := s.begun[id].identity;
      var noted := s.(
        codeTerminals := s.codeTerminals + 1, codeActive := s.codeActive - {id},
        unavailable := s.unavailable + IdentityLacking(p, i), closed := s.closed + {id});
      Write(noted, Data(CodeTerminalRecord(p, i, s.sequence, success)), delivered)
    case NativeDone(session, message, call, success, payload, delivered) =>
      var key := KeyFor(session, message, call);
      if key !in s.nativeActive then s
      else
        var i := s.nativeActive[key];
        var noted := s.(
          nativeActive := s.nativeActive - {key}, nativeTerminals := s.nativeTerminals + 1,
          unavailable := s.unavailable + IdentityLacking(p, i) + Lacking(p(payload)),
          closed := s.closed + {i.id});
        Write(noted, Data(NativeTerminalRecord(p, i, s.sequence, success, payload)), delivered)
    case MalformedCallback => s.(callbackFailures := s.callbackFailures + 1)
    case SubscriptionFailed => s.(callbackFailures := s.callbackFailures + 1)
    case SocketError => s.(observerFailures := s.observerFailures + 1)
    case Dispose(delivered) => Write(s.(ended := true), EndMark(Some(Totals(s))), delivered)
  }

  // A run: every action enabled where it happens.
  predicate Runs(s: State, p: Projector, actions: seq<Action>)
    decreases |actions|
  {
    actions == [] || (Enabled(s, actions[0]) && Runs(Act(s, p, actions[0]), p, actions[1..]))
  }

  function After(s: State, p: Projector, actions: seq<Action>): State
    requires Runs(s, p, actions)
    decreases |actions|
  {
    if actions == [] then s else After(Act(s, p, actions[0]), p, actions[1..])
  }
}

// The observer as the object it is: module-level counters and maps updated by each callback.
module Observer {
  import opened Wrappers
  import opened Json
  import opened Records
  import opened Loader
  import opened ObserverModel

  class RuntimeObserver {
    const project: Projector
    var sequence: nat
    var nativeStarts: nat
    var nativeTerminals: nat
    var codeStarts: nat
    var codeTerminals: nat
    var observerFailures: nat
    var callbackFailures: nat
    var unavailable: nat
    var nativeActive: map<string, Identity>
    var activeOuter: map<string, string>
    var pending: set<string>
    var codeActive: set<string>
    var ended: bool
    var sent: seq<Line>
    var begun: map<string, Begun>
    ghost var overwritten: nat
    ghost var closed: set<string>

    ghost function View(): State
      reads this
    {
      State(sequence, nativeStarts, nativeTerminals, codeStarts, codeTerminals, observerFailures, callbackFailures,
            unavailable, nativeActive, activeOuter, pending, codeActive, ended, sent, overwritten, begun, closed)
    }

    constructor (project: Projector, delivered: bool)
      ensures this.project == project && View() == Setup(delivered)
    {
      this.project := project;
      sequence, nativeStarts, nativeTerminals, codeStarts, codeTerminals := 0, 0, 0, 0, 0;
      observerFailures, callbackFailures, unavailable := 0, 0, 0;
      nativeActive, activeOuter, pending, codeActive, ended, sent := map[], map[], {}, {}, false, [];
      begun, overwritten, closed := map[], 0, {};
      new;
      Emit(StartMark(true), delivered);
    }

    method Emit(body: Body, delivered: bool)
      modifies this`sequence, this`sent, this`observerFailures
      ensures View() == Write(old(View()), body, delivered)
    {
      var event := Event(Some(sequence), Some(observerFailures), Some(callbackFailures), body);
      sequence := sequence + 1;
      if !delivered {
        observerFailures := observerFailures + 1;
        return;
      }
      sent := sent + [event];
    }

    method Projected(value: Json) returns (f: RawField)
      modifies this`unavailable
      ensures f == project(value) && unavailable == old(unavailable) + Lacking(f)
    {
      f := project(value);
      if !f.Shown? {
        unavailable := unavailable + 1;
      }
    }

    method ProjectedIdentity(kind: RecordKind, i: Identity, boundary: Label) returns (r: Record)
      modifies this`unavailable
      ensures r == Base(project, kind, i, sequence, boundary)
      ensures unavailable == old(unavailable) + IdentityLacking(project, i)
    {
      var tool := Projected(Text(i.tool));
      var session := Projected(Text(i.session));
      var agent := Projected(Text(i.agent));
      var message := Projected(Text(i.message));
      var call := Projected(Text(i.call));
      r := Record(kind, Some(i.id), sequence, tool, agent, session, message, call, None, NOTHING, NOTHING,
                  OtherOutcome, NOTHING, NOTHING, boundary);
    }

    // What both kinds of native start do before they wait for the parent session.
    method BeginCall(i: Identity, hook: bool)
      modifies this`nativeStarts, this`nativeActive, this`begun, this`pending, this`unavailable
      ensures View() == BeginNative(old(View()), project, i, hook)
    {
      hide IdentityLacking, Base, KeyFor, Act, Write;
      nativeStarts := nativeStarts + 1;
      nativeActive := nativeActive[Key(i) := i];
      begun := begun[i.id := BegunNative(i, hook)];
      pending := pending + {i.id};
      var identity := ProjectedIdentity(NativeStart, i, if hook then ExecuteBefore else DecodedExecute);
    }

    // The wrapped `execute` of a registered tool, up to the wait for the parent session.
    method StartWrapped(i: Identity)
      requires FreshId(View(), i.id)
      modifies this
      ensures View() == Act(old(View()), project, WrappedStart(i))
    {
      hide FreshId, KeyFor;
      var clash := Key(i) in nativeActive;
      BeginCall(i, false);
      if clash {
        observerFailures := observerFailures + 1;
        overwritten := overwritten + 1;
      }
      if i.tool == "execute" {
        activeOuter := activeOuter[Key(i) := i.id];
      }
    }

    // The execute.before hook, up to the same wait.
    method StartHook(i: Identity)
      requires FreshId(View(), i.id) && i.tool == "execute"
      modifies this
      ensures View() == Act(old(View()), project, HookStart(i))
    {
      hide FreshId, KeyFor;
      if Key(i) in nativeActive {
        activeOuter := activeOuter[Key(i) := nativeActive[Key(i)].id];
        return;
      }
      BeginCall(i, true);
      activeOuter := activeOuter[Key(i) := i.id];
    }

    // The parent session has answered, or has not.
    method NoteParent(id: string, parent: ParentAnswer)
      modifies this`callbackFailures, this`unavailable, this`pending
      ensures var failed := if parent.ParentFailed? then 1 else 0;
              View() == old(View()).(
                pending := old(pending) - {id}, callbackFailures := old(callbackFailures) + failed,
                unavailable := old(unavailable) + failed)
    {
      if parent.ParentFailed? {
        callbackFailures := callbackFailures + 1;
        unavailable := unavailable + 1;
      }
      pending := pending - {id};
    }

    // The rest of either callback: the parent session has answered and the start is written.
    method WriteStart(id: string, parent: ParentAnswer, input: Json, delivered: bool)
      requires Enabled(View(), StartWritten(id, parent, input, delivered))
      modifies this
      ensures View() == Act(old(View()), project, StartWritten(id, parent, input, delivered))
    {
      hide IdentityLacking, KeyFor, BeginNative, CodeStartRecord, NativeTerminalRecord, CodeTerminalRecord, Totals,
        ParentFieldFor;
      NoteParent(id, parent);
      var shown := Projected(input);
      var base := Base(project, NativeStart, begun[id].identity, sequence,
                       if begun[id].hook then ExecuteBefore else DecodedExecute);
      Emit(Data(base.(parentSession := ParentFieldFor(parent), input := shown)), delivered);
    }

    method FinishOuter(session: string, message: string, call: string)
      modifies this`activeOuter
      ensures View() == Act(old(View()), project, OuterDone(session, message, call))
    {
      activeOuter := activeOuter - {KeyFor(session, message, call)};
    }

    // A Code Mode call enters the active set and its identity and input are projected.
    method BeginCode(i: Identity, parent: string, input: Json) returns (r: Record)
      modifies this`codeStarts, this`codeActive, this`begun, this`unavailable
      ensures r == CodeStartRecord(project, i, sequence, parent, input)
      ensures View() == old(View()).(
                codeStarts := old(codeStarts) + 1, codeActive := old(codeActive) + {i.id},
                unavailable := old(unavailable) + IdentityLacking(project, i) + Lacking(project(input)),
                begun := old(begun)[i.id := BegunCode(i, parent)])
    {
      hide IdentityLacking, Base, Lacking;
      codeStarts := codeStarts + 1;
      codeActive := codeActive + {i.id};
      begun := begun[i.id := BegunCode(i, parent)];
      var base := ProjectedIdentity(CodeStart, i, DecodedCode);
      var shown := Projected(input);
      r := base.(parentInvocation := Some(parent), input := shown);
    }

    // A wrapped Code Mode tool.
    method StartCode(i: Identity, input: Json, delivered: bool)
      requires FreshId(View(), i.id)
      modifies this
      ensures View() == Act(old(View()), project, CodeCalled(i, input, delivered))
    {
      hide IdentityLacking, FreshId, KeyFor, BeginNative, NativeStartRecord, CodeStartRecord, NativeTerminalRecord,
        CodeTerminalRecord, Totals;
      if Key(i) !in activeOuter || activeOuter[Key(i)] == "" {
        return;
      }
      var parent := activeOuter[Key(i)];
      var r := BeginCode(i, parent, input);
      Emit(Data(r), delivered);
    }

    // The call leaves the active set and its identity is projected again.
    method CloseCode(id: string, boundary: Label) returns (base: Record)
      requires id in begun
      modifies this`codeTerminals, this`codeActive, this`closed, this`unavailable
      ensures base == Base(project, CodeTerminal, old(begun)[id].identity, sequence, boundary)
      ensures View() == old(View()).(
                codeTerminals := old(codeTerminals) + 1, codeActive := old(codeActive) - {id},
                closed := old(closed) + {id},
                unavailable := old(unavailable) + IdentityLacking(project, old(begun)[id].identity))
    {
      hide IdentityLacking, Base;
      codeTerminals := codeTerminals + 1;
      codeActive := codeActive - {id};
      closed := closed + {id};
      base := ProjectedIdentity(CodeTerminal, begun[id].identity, boundary);
    }

    method FinishCode(id: string, success: bool, delivered: bool)
      requires Enabled(View(), CodeDone(id, success, delivered))
      modifies this
      ensures View() == Act(old(View()), project, CodeDone(id, success, delivered))
    {
      hide IdentityLacking, Base, FreshId, KeyFor, BeginNative, NativeStartRecord, CodeStartRecord,
        NativeTerminalRecord, Totals;
      var base := CloseCode(id, if success then HandlerReturn else HandlerThrow);
      Emit(Data(base.(outcome := if success then Succeeded else Failed)), delivered);
    }

    // The call leaves the active map and its identity is projected again.
    method CloseCall(key: string, boundary: Label) returns (current: Identity, base: Record)
      requires key in nativeActive
      modifies this
      ensures current == old(nativeActive)[key]
      ensures base == Base(project, NativeTerminal, current, sequence, boundary)
      ensures View() == old(View()).(
                nativeActive := old(nativeActive) - {key}, nativeTerminals := old(nativeTerminals) + 1,
                unavailable := old(unavailable) + IdentityLacking(project, current),
                closed := old(closed) + {current.id})
    {
      hide IdentityLacking, Base;
      current := nativeActive[key];
      nativeActive := nativeActive - {key};
      nativeTerminals := nativeTerminals + 1;
      closed := closed + {current.id};
      base := ProjectedIdentity(NativeTerminal, current, boundary);
    }

    // `terminal`
    method FinishNative(session: string, message: string, call: string, success: bool, payload: Json, delivered: bool)
      modifies this
      ensures View() == Act(old(View()), project, NativeDone(session, message, call, success, payload, delivered))
    {
      hide IdentityLacking, Base, KeyFor, BeginNative, NativeStartRecord, CodeStartRecord, CodeTerminalRecord, Totals;
      var key := KeyFor(session, message, call);
      if key !in nativeActive {
        return;
      }
      var current, base := CloseCall(key, if success then SessionSuccess else SessionFailed);
      var shown := Projected(payload);
      if success {
        Emit(Data(base.(outcome := Succeeded, result := shown)), delivered);
      } else {
        Emit(Data(base.(outcome := Failed, error := shown)), delivered);
      }
    }

    // A malformed terminal event or hook event, or a subscription that broke.
    method FailCallback()
      modifies this`callbackFailures
      ensures View() == Act(old(View()), project, MalformedCallback) == Act(old(View()), project, SubscriptionFailed)
    {
      callbackFailures := callbackFailures + 1;
    }

    // The socket's error event.
    method FailSocket()
      modifies this`observerFailures
      ensures View() == Act(old(View()), project, SocketError)
    {
      observerFailures := observerFailures + 1;
    }

    method Stop(delivered: bool)
      requires !ended
      modifies this
      ensures View() == Act(old(View()), project, Dispose(delivered))
    {
      ended := true;
      Emit(EndMark(Some(EndCounts(nativeStarts, nativeTerminals, codeStarts, codeTerminals, unavailable))), delivered);
    }
  }
}
