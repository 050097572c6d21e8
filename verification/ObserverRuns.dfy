// What every interleaving of the observer keeps, and how the builder's intake mirrors a quiet run.

module ObserverInvariant {
  import opened ObserverModel

  // Every native start has ended, is active, or had its key taken over, and each takeover was counted.
  predicate Accounted(s: State) {
    s.nativeStarts == s.nativeTerminals + |s.nativeActive| + s.overwritten
    && s.overwritten <= s.observerFailures
  }

  lemma RemovedSize<K, V>(m: map<K, V>, k: K)
    requires k in m
    ensures |m| == |m - {k}| + 1
  {}

  lemma ActKeepsAccount(s: State, p: Projector, a: Action)
    requires Enabled(s, a) && Accounted(s)
    ensures Accounted(Act(s, p, a))
  {
    if a.NativeDone? && KeyFor(a.session, a.message, a.call) in s.nativeActive {
      RemovedSize(s.nativeActive, KeyFor(a.session, a.message, a.call));
    }
  }

  lemma {:induction false} RunKeepsAccount(s: State, p: Projector, actions: seq<Action>)
    requires Accounted(s) && Runs(s, p, actions)
    ensures Accounted(After(s, p, actions))
    decreases |actions|
  {
    if actions != [] {
      ActKeepsAccount(s, p, actions[0]);
      RunKeepsAccount(Act(s, p, actions[0]), p, actions[1..]);
    }
  }

  // IN EVERY REACHABLE INTERLEAVING the native counters balance.
  lemma EveryRunIsAccounted(p: Projector, delivered: bool, actions: seq<Action>)
    requires Runs(Setup(delivered), p, actions)
    ensures var s := After(Setup(delivered), p, actions);
            && s.nativeStarts == s.nativeTerminals + |s.nativeActive| + s.overwritten
            && s.overwritten <= s.observerFailures
  {
    RunKeepsAccount(Setup(delivered), p, actions);
  }
}

module ObserverMirror {
  import opened Wrappers
  import opened Sequences
  import opened Json
  import opened Records
  import opened Builder
  import opened IntakeFacts
  import opened Loader
  import opened LossDetection
  import opened ObserverModel

  // No failure, no takeover and no withheld field so far.
  predicate Quiet(s: State) {
    s.observerFailures == 0 && s.callbackFailures == 0 && s.unavailable == 0 && s.overwritten == 0
  }

  ghost function Held(s: State): Intake { Take([], RecordsOf(s.sent)) }

  predicate IdentityMirrors(r: Record, id: string, i: Identity, p: Projector) {
    && r.id == Some(id) && i.id == id && id != "" && |id| <= 256
    && r.tool == Said(p, i.tool) && r.sessionId == Said(p, i.session) && r.agent == Said(p, i.agent)
    && r.messageId == Said(p, i.message) && r.callId == Said(p, i.call)
    && r.tool.Shown? && r.sessionId.Shown? && r.agent.Shown? && r.messageId.Shown? && r.callId.Shown?
  }

  predicate StartMirrors(r: Record, id: string, b: Begun, p: Projector) {
    && IdentityMirrors(r, id, b.identity, p) && r.input.Shown?
    && match b
       case BegunNative(_, hook) =>
         r.kind == NativeStart && r.boundary == (if hook then ExecuteBefore else DecodedExecute)
       case BegunCode(_, parent) => r.kind == CodeStart && r.parentInvocation == Some(parent)
  }

  predicate TerminalMirrors(r: Record, id: string, b: Begun, p: Projector) {
    && IdentityMirrors(r, id, b.identity, p)
    && (r.outcome == Succeeded || r.outcome == Failed)
    && match b
       case BegunNative(_, _) =>
         && r.kind == NativeTerminal
         && r.boundary == (if r.outcome == Succeeded then SessionSuccess else SessionFailed)
         && (if r.outcome == Succeeded then r.result.Shown? else r.error.Shown?)
       case BegunCode(_, _) =>
         r.kind == CodeTerminal && r.boundary == (if r.outcome == Succeeded then HandlerReturn else HandlerThrow)
  }

  // The transcript so far.
  predicate SentMirrors(s: State) {
    s.sent != [] && Open(s.sent) && |s.sent| == s.sequence && !s.ended
  }

  // The builder's intake of n lines against the calls begun, the starts not yet written and the calls closed.
  ghost predicate IntakeMirrors(t: Intake, n: nat, begun: map<string, Begun>, pending: set<string>,
                                closed: set<string>, p: Projector)
  {
    && !t.invalid && Kept(t) && (forall x :: x in t.seen ==> 0 <= x < n)
    && t.starts.Keys == begun.Keys - pending && t.terminals.Keys == closed && closed <= begun.Keys
    && (forall id :: id in t.starts ==> StartMirrors(t.starts[id], id, begun[id], p))
    && (forall id :: id in t.terminals ==> TerminalMirrors(t.terminals[id], id, begun[id], p))
    && (forall id :: id in t.terminals && begun[id].BegunCode? ==>
          id in t.starts && t.starts[id].sequence < t.terminals[id].sequence)
  }

  // Every identity begun so far is projected in full.
  ghost predicate BegunMirrors(begun: map<string, Begun>, pending: set<string>, p: Projector) {
    && (forall id :: id in begun ==>
          && IdentityLacking(p, begun[id].identity) == 0
          && begun[id].identity.id == id && id != "" && |id| <= 256
          && (begun[id].BegunNative? && begun[id].hook ==> begun[id].identity.tool == "execute"))
    && (forall id :: id in pending ==> id in begun && begun[id].BegunNative?)
  }

  // The active calls are the ones begun and not closed.
  ghost predicate ActiveMirrors(active: map<string, Identity>, codeActive: set<string>,
                                begun: map<string, Begun>, closed: set<string>)
  {
    && (forall k :: k in active ==>
          && Key(active[k]) == k && active[k].id in begun && active[k].id !in closed
          && begun[active[k].id]
             == BegunNative(active[k], begun[active[k].id].BegunNative? && begun[active[k].id].hook))
    && (forall id :: id in begun && begun[id].BegunNative? && id !in closed ==>
          Key(begun[id].identity) in active && active[Key(begun[id].identity)].id == id)
    && (forall id :: id in codeActive <==> id in begun && begun[id].BegunCode? && id !in closed)
  }

  // An outer call on a key, and the parent of every Code Mode call, is a native call with the same key.
  ghost predicate OuterMirrors(outer: map<string, string>, begun: map<string, Begun>) {
    && (forall k :: k in outer ==>
          outer[k] in begun && begun[outer[k]].BegunNative? && Key(begun[outer[k]].identity) == k)
    && (forall id :: id in begun && begun[id].BegunCode? ==>
          && begun[id].parent in begun && begun[begun[id].parent].BegunNative?
          && Key(begun[begun[id].parent].identity) == Key(begun[id].identity))
  }

  ghost predicate CountsMirror(rs: seq<Record>, waiting: nat, counts: EndCounts) {
    && CountKind(rs, NativeStart) + waiting == counts.nativeStarts
    && CountKind(rs, NativeTerminal) == counts.nativeTerminals
    && CountKind(rs, CodeStart) == counts.codeStarts
    && CountKind(rs, CodeTerminal) == counts.codeTerminals
  }

  ghost predicate Mirror(s: State, p: Projector) {
    && SentMirrors(s)
    && IntakeMirrors(Held(s), |s.sent|, s.begun, s.pending, s.closed, p)
    && BegunMirrors(s.begun, s.pending, p)
    && ActiveMirrors(s.nativeActive, s.codeActive, s.begun, s.closed)
    && OuterMirrors(s.activeOuter, s.begun)
    && CountsMirror(RecordsOf(s.sent), |s.pending|, Totals(s))
  }

  lemma EmptyIntake(n: nat, p: Projector)
    ensures IntakeMirrors(TakeIssues([]), n, map[], {}, {}, p)
  {}

  lemma SetupMirrors(p: Projector)
    ensures Quiet(Setup(true)) && Mirror(Setup(true), p)
  {
    hide StartMirrors, TerminalMirrors, IdentityLacking, KeyFor, IntakeMirrors, Kept, Dedupe, TakeOne;
    var s := Setup(true);
    assert s.sent == [Event(Some(0), Some(0), Some(0), StartMark(true))];
    assert s.sent[..0] == [];
    assert RecordsOf(s.sent) == [];
    assert Held(s) == TakeIssues([]);
    EmptyIntake(|s.sent|, p);
  }

  // ---------- one record more ----------

  lemma SentOne(s: State, r: Record, next: State)
    requires SentMirrors(s) && next == Write(s, Data(r), true) && !r.kind.UnknownKind?
    ensures SentMirrors(next) && |next.sent| == |s.sent| + 1
    ensures RecordsOf(next.sent) == RecordsOf(s.sent) + [r.(sequence := |s.sent|)]
    ensures Held(next) == TakeOne(Held(s), r.(sequence := |s.sent|))
  {}

  lemma CountOne(rs: seq<Record>, r: Record, waiting: nat, counts: EndCounts, less: nat, more: EndCounts)
    requires CountsMirror(rs, waiting, counts)
    requires more.nativeStarts - less == counts.nativeStarts - waiting + if r.kind == NativeStart then 1 else 0
    requires more.nativeTerminals == counts.nativeTerminals + if r.kind == NativeTerminal then 1 else 0
    requires more.codeStarts == counts.codeStarts + if r.kind == CodeStart then 1 else 0
    requires more.codeTerminals == counts.codeTerminals + if r.kind == CodeTerminal then 1 else 0
    ensures CountsMirror(rs + [r], less, more)
  {}

  lemma StartFacts(r: Record, id: string, b: Begun, p: Projector)
    requires StartMirrors(r, id, b, p)
    ensures r.id == Some(id) && id != "" && IsStart(r.kind)
  {}

  lemma TerminalFacts(r: Record, id: string, b: Begun, p: Projector)
    requires TerminalMirrors(r, id, b, p)
    ensures r.id == Some(id) && id != "" && IsTerminal(r.kind)
  {}

  // A new start record enters the intake as the start of its call.
  lemma TakeStartMirrors(t: Intake, n: nat, r: Record, id: string, begun: map<string, Begun>, pending: set<string>,
                         closed: set<string>, p: Projector, after: map<string, Begun>, waiting: set<string>)
    requires IntakeMirrors(t, n, begun, pending, closed, p) && r.sequence == n
    requires id in after && id !in t.starts && StartMirrors(r, id, after[id], p)
    requires forall x :: x in begun ==> x in after && after[x] == begun[x]
    requires after.Keys - waiting == (begun.Keys - pending) + {id}
    requires id in closed ==> id in begun && begun[id].BegunNative?
    ensures IntakeMirrors(TakeOne(t, r), n + 1, after, waiting, closed, p)
  {
    hide StartMirrors, TerminalMirrors, Kept;
    StartFacts(r, id, after[id], p);
    TakeOneKeeps(t, r);
    assert TakeOne(t, r).starts == t.starts[id := r];
  }

  // A new terminal record enters the intake as the terminal of its call.
  lemma TakeTerminalMirrors(t: Intake, n: nat, r: Record, id: string, begun: map<string, Begun>,
                            pending: set<string>, closed: set<string>, p: Projector)
    requires IntakeMirrors(t, n, begun, pending, closed, p) && r.sequence == n
    requires id in begun && id !in closed && TerminalMirrors(r, id, begun[id], p)
    requires begun[id].BegunCode? ==> id !in pending
    ensures IntakeMirrors(TakeOne(t, r), n + 1, begun, pending, closed + {id}, p)
  {
    hide StartMirrors, TerminalMirrors, Kept;
    StartedBefore(t, n, begun, pending, closed, p);
    TerminalFacts(r, id, begun[id], p);
    TakeOneKeeps(t, r);
    TakesTerminal(t, n, r, id);
    var next := TakeOne(t, r);
    assert next.terminals.Keys == closed + {id};
    assert id in begun.Keys;
  }

  lemma TakesTerminal(t: Intake, n: nat, r: Record, id: string)
    requires (forall x :: x in t.seen ==> 0 <= x < n) && r.sequence == n && r.id == Some(id) && id != ""
    requires IsTerminal(r.kind) && id !in t.terminals
    ensures TakeOne(t, r) == t.(seen := t.seen + {n}, terminals := t.terminals[id := r])
  {}

  lemma StartedBefore(t: Intake, n: nat, begun: map<string, Begun>, pending: set<string>, closed: set<string>,
                      p: Projector)
    requires IntakeMirrors(t, n, begun, pending, closed, p)
    ensures forall id :: id in t.starts ==> t.starts[id].sequence < n
  {}

  // ---------- the books ----------

  lemma RemovedSize(s: set<string>, x: string)
    requires x in s
    ensures |s - {x}| + 1 == |s|
  {}

  lemma BegunFacts(begun: map<string, Begun>, pending: set<string>, p: Projector, id: string)
    requires BegunMirrors(begun, pending, p) && id in begun
    ensures IdentityLacking(p, begun[id].identity) == 0 && begun[id].identity.id == id && id != "" && |id| <= 256
    ensures begun[id].BegunCode? ==> id !in pending
  {}

  // A native call is begun on a free key.
  lemma BeginBooks(s: State, p: Projector, i: Identity, hook: bool)
    requires Mirror(s, p) && FreshId(s, i.id) && Key(i) !in s.nativeActive && IdentityLacking(p, i) == 0
    requires hook ==> i.tool == "execute"
    ensures var after := s.begun[i.id := BegunNative(i, hook)];
            && i.id !in s.pending && i.id !in s.closed
            && IntakeMirrors(Held(s), |s.sent|, after, s.pending + {i.id}, s.closed, p)
            && BegunMirrors(after, s.pending + {i.id}, p)
            && ActiveMirrors(s.nativeActive[Key(i) := i], s.codeActive, after, s.closed)
            && OuterMirrors(s.activeOuter, after)
  {
    hide IntakeMirrors, ActiveMirrors, BegunMirrors, OuterMirrors, IdentityLacking, Key, SentMirrors, CountsMirror,
      Held;
    BeginIntake(Held(s), |s.sent|, s.begun, s.pending, s.closed, p, i, hook);
    BeginActive(s.nativeActive, s.codeActive, s.begun, s.closed, i, hook);
    BeginBegun(s.begun, s.pending, p, i, hook);
    BeginOuter(s.activeOuter, s.begun, i, hook);
  }

  lemma BeginBegun(begun: map<string, Begun>, pending: set<string>, p: Projector, i: Identity, hook: bool)
    requires BegunMirrors(begun, pending, p) && i.id !in begun && i.id != "" && |i.id| <= 256
    requires IdentityLacking(p, i) == 0 && (hook ==> i.tool == "execute")
    ensures BegunMirrors(begun[i.id := BegunNative(i, hook)], pending + {i.id}, p) && i.id !in pending
  {}

  lemma BeginOuter(outer: map<string, string>, begun: map<string, Begun>, i: Identity, hook: bool)
    requires OuterMirrors(outer, begun) && i.id !in begun
    ensures OuterMirrors(outer, begun[i.id := BegunNative(i, hook)])
  {}

  lemma BeginIntake(t: Intake, n: nat, begun: map<string, Begun>, pending: set<string>, closed: set<string>,
                    p: Projector, i: Identity, hook: bool)
    requires IntakeMirrors(t, n, begun, pending, closed, p) && i.id !in begun
    ensures IntakeMirrors(t, n, begun[i.id := BegunNative(i, hook)], pending + {i.id}, closed, p)
    ensures i.id !in closed
  {
    hide StartMirrors, TerminalMirrors, Kept;
    var after := begun[i.id := BegunNative(i, hook)];
    assert after.Keys - (pending + {i.id}) == begun.Keys - pending;
  }

  lemma BeginActive(active: map<string, Identity>, codeActive: set<string>, begun: map<string, Begun>,
                    closed: set<string>, i: Identity, hook: bool)
    requires ActiveMirrors(active, codeActive, begun, closed)
    requires i.id !in begun && i.id !in closed && Key(i) !in active
    ensures ActiveMirrors(active[Key(i) := i], codeActive, begun[i.id := BegunNative(i, hook)], closed)
  {}

  lemma CodeBooks(s: State, p: Projector, i: Identity, parent: string)
    requires Mirror(s, p) && FreshId(s, i.id) && IdentityLacking(p, i) == 0
    requires Key(i) in s.activeOuter && s.activeOuter[Key(i)] == parent
    ensures var after := s.begun[i.id := BegunCode(i, parent)];
            && i.id !in s.pending && i.id !in s.closed
            && BegunMirrors(after, s.pending, p)
            && ActiveMirrors(s.nativeActive, s.codeActive + {i.id}, after, s.closed)
            && OuterMirrors(s.activeOuter, after)
  {
    hide IntakeMirrors, ActiveMirrors, BegunMirrors, OuterMirrors, IdentityLacking, Key, SentMirrors, CountsMirror,
      Held;
    CodeBegun(s.begun, s.pending, p, i, parent);
    CodeActive(Held(s), |s.sent|, s.nativeActive, s.codeActive, s.begun, s.pending, s.closed, p, i, parent);
    CodeOuter(s.activeOuter, s.begun, i, parent);
  }

  lemma CodeBegun(begun: map<string, Begun>, pending: set<string>, p: Projector, i: Identity, parent: string)
    requires BegunMirrors(begun, pending, p) && i.id !in begun && i.id != "" && |i.id| <= 256
    requires IdentityLacking(p, i) == 0
    ensures BegunMirrors(begun[i.id := BegunCode(i, parent)], pending, p) && i.id !in pending
  {}

  lemma CodeActive(t: Intake, n: nat, active: map<string, Identity>, codeActive: set<string>, begun: map<string, Begun>,
                   pending: set<string>, closed: set<string>, p: Projector, i: Identity, parent: string)
    requires IntakeMirrors(t, n, begun, pending, closed, p) && ActiveMirrors(active, codeActive, begun, closed)
    requires i.id !in begun
    ensures i.id !in closed
    ensures ActiveMirrors(active, codeActive + {i.id}, begun[i.id := BegunCode(i, parent)], closed)
  {
    hide Key, StartMirrors, TerminalMirrors, Kept;
  }

  lemma CodeOuter(outer: map<string, string>, begun: map<string, Begun>, i: Identity, parent: string)
    requires OuterMirrors(outer, begun) && i.id !in begun && Key(i) in outer && outer[Key(i)] == parent
    ensures OuterMirrors(outer, begun[i.id := BegunCode(i, parent)])
  {}

  lemma CloseNativeBooks(active: map<string, Identity>, codeActive: set<string>, begun: map<string, Begun>,
                         closed: set<string>, key: string)
    requires ActiveMirrors(active, codeActive, begun, closed) && key in active
    ensures ActiveMirrors(active - {key}, codeActive, begun, closed + {active[key].id})
    ensures active[key].id in begun && active[key].id !in closed
    ensures begun[active[key].id].BegunNative? && begun[active[key].id].identity == active[key]
  {}

  lemma CloseCodeBooks(active: map<string, Identity>, codeActive: set<string>, begun: map<string, Begun>,
                       closed: set<string>, id: string)
    requires ActiveMirrors(active, codeActive, begun, closed) && id in codeActive
    ensures ActiveMirrors(active, codeActive - {id}, begun, closed + {id})
    ensures id in begun && id !in closed && begun[id].BegunCode?
  {}

  // ---------- the records ----------

  lemma NativeStartMirrors(p: Projector, id: string, b: Begun, sequence: nat, at: nat, parent: ParentAnswer,
                           input: Json)
    requires b.BegunNative? && b.identity.id == id && id != "" && |id| <= 256
    requires IdentityLacking(p, b.identity) == 0 && p(input).Shown?
    ensures StartMirrors(NativeStartRecord(p, b, sequence, parent, input).(sequence := at), id, b, p)
  {}

  lemma CodeStartMirrors(p: Projector, i: Identity, sequence: nat, at: nat, parent: string, input: Json)
    requires i.id != "" && |i.id| <= 256 && IdentityLacking(p, i) == 0 && p(input).Shown?
    ensures StartMirrors(CodeStartRecord(p, i, sequence, parent, input).(sequence := at), i.id, BegunCode(i, parent), p)
  {}

  lemma NativeTerminalMirrors(p: Projector, id: string, b: Begun, sequence: nat, at: nat, success: bool, payload: Json)
    requires b.BegunNative? && b.identity.id == id && id != "" && |id| <= 256
    requires IdentityLacking(p, b.identity) == 0 && p(payload).Shown?
    ensures TerminalMirrors(NativeTerminalRecord(p, b.identity, sequence, success, payload).(sequence := at), id, b, p)
  {}

  lemma CodeTerminalMirrors(p: Projector, id: string, b: Begun, sequence: nat, at: nat, success: bool)
    requires b.BegunCode? && b.identity.id == id && id != "" && |id| <= 256 && IdentityLacking(p, b.identity) == 0
    ensures TerminalMirrors(CodeTerminalRecord(p, b.identity, sequence, success).(sequence := at), id, b, p)
  {}

  // ---------- the actions ----------

  lemma BeginMirrors(s: State, p: Projector, i: Identity, hook: bool)
    requires Mirror(s, p) && FreshId(s, i.id) && Key(i) !in s.nativeActive && IdentityLacking(p, i) == 0
    requires hook ==> i.tool == "execute"
    ensures Mirror(BeginNative(s, p, i, hook), p)
  {
    hide IntakeMirrors, BegunMirrors, ActiveMirrors, OuterMirrors, Open, Key, FreshId, IdentityLacking, Take, RecordsOf;
    BeginBooks(s, p, i, hook);
  }

  lemma StartWrittenMirrors(s: State, p: Projector, id: string, parent: ParentAnswer, input: Json)
    requires Mirror(s, p) && Enabled(s, StartWritten(id, parent, input, true))
    requires !parent.ParentFailed? && p(input).Shown?
    ensures Mirror(Act(s, p, StartWritten(id, parent, input, true)), p)
  {
    hide IntakeMirrors, BegunMirrors, ActiveMirrors, OuterMirrors, CountsMirror, Open, Key, IdentityLacking, Take,
      RecordsOf, StartMirrors;
    var r := NativeStartRecord(p, s.begun[id], s.sequence, parent, input);
    var next := Act(s, p, StartWritten(id, parent, input, true));
    var fewer := s.pending - {id};
    BegunFacts(s.begun, s.pending, p, id);
    NativeStartMirrors(p, id, s.begun[id], s.sequence, |s.sent|, parent, input);
    StartWrittenIntake(s, p, id, r.(sequence := |s.sent|));
    RemovedSize(s.pending, id);
    assert next == Write(s.(pending := fewer), Data(r), true);
    SentOne(s.(pending := fewer), r, next);
    CountOne(RecordsOf(s.sent), r.(sequence := |s.sent|), |s.pending|, Totals(s), |fewer|, Totals(next));
  }

  lemma StartWrittenIntake(s: State, p: Projector, id: string, r: Record)
    requires Mirror(s, p) && id in s.pending && id in s.begun && s.begun[id].BegunNative?
    requires StartMirrors(r, id, s.begun[id], p) && r.sequence == |s.sent|
    ensures IntakeMirrors(TakeOne(Held(s), r), |s.sent| + 1, s.begun, s.pending - {id}, s.closed, p)
    ensures BegunMirrors(s.begun, s.pending - {id}, p)
  {
    hide StartMirrors, TerminalMirrors, Kept, Key, IdentityLacking, Take, RecordsOf, ActiveMirrors, OuterMirrors,
      SentMirrors, CountsMirror;
    assert s.begun.Keys - (s.pending - {id}) == (s.begun.Keys - s.pending) + {id};
    TakeStartMirrors(Held(s), |s.sent|, r, id, s.begun, s.pending, s.closed, p, s.begun, s.pending - {id});
  }

  lemma CodeCalledMirrors(s: State, p: Projector, i: Identity, input: Json)
    requires Mirror(s, p) && Enabled(s, CodeCalled(i, input, true))
    requires Key(i) in s.activeOuter && s.activeOuter[Key(i)] != ""
    requires IdentityLacking(p, i) == 0 && p(input).Shown?
    ensures Mirror(Act(s, p, CodeCalled(i, input, true)), p)
  {
    hide IntakeMirrors, BegunMirrors, ActiveMirrors, OuterMirrors, CountsMirror, Open, Key, IdentityLacking, Take,
      RecordsOf, StartMirrors;
    var parent := s.activeOuter[Key(i)];
    var after := s.begun[i.id := BegunCode(i, parent)];
    var r := CodeStartRecord(p, i, s.sequence, parent, input);
    var noted := s.(codeStarts := s.codeStarts + 1, codeActive := s.codeActive + {i.id}, begun := after);
    var next := Act(s, p, CodeCalled(i, input, true));
    CodeBooks(s, p, i, parent);
    CodeStartMirrors(p, i, s.sequence, |s.sent|, parent, input);
    CodeCalledIntake(s, p, i, parent, r.(sequence := |s.sent|));
    assert next == Write(noted, Data(r), true);
    SentOne(noted, r, next);
    CountOne(RecordsOf(s.sent), r.(sequence := |s.sent|), |s.pending|, Totals(s), |s.pending|, Totals(next));
  }

  lemma CodeCalledIntake(s: State, p: Projector, i: Identity, parent: string, r: Record)
    requires Mirror(s, p) && FreshId(s, i.id) && r.sequence == |s.sent| && i.id !in s.pending
    requires StartMirrors(r, i.id, BegunCode(i, parent), p)
    ensures IntakeMirrors(TakeOne(Held(s), r), |s.sent| + 1, s.begun[i.id := BegunCode(i, parent)], s.pending,
                          s.closed, p)
  {
    hide StartMirrors, TerminalMirrors, Kept, Key, IdentityLacking, Take, RecordsOf, ActiveMirrors, OuterMirrors,
      SentMirrors, CountsMirror;
    var after := s.begun[i.id := BegunCode(i, parent)];
    assert after.Keys - s.pending == (s.begun.Keys - s.pending) + {i.id};
    TakeStartMirrors(Held(s), |s.sent|, r, i.id, s.begun, s.pending, s.closed, p, after, s.pending);
  }

  lemma CodeDoneMirrors(s: State, p: Projector, id: string, success: bool)
    requires Mirror(s, p) && Enabled(s, CodeDone(id, success, true))
    ensures Mirror(Act(s, p, CodeDone(id, success, true)), p)
  {
    hide IntakeMirrors, BegunMirrors, ActiveMirrors, OuterMirrors, CountsMirror, Open, Key, IdentityLacking, Take,
      RecordsOf, TerminalMirrors;
    var i := s.begun[id].identity;
    var r := CodeTerminalRecord(p, i, s.sequence, success);
    var noted := s.(codeTerminals := s.codeTerminals + 1, codeActive := s.codeActive - {id}, closed := s.closed + {id});
    var next := Act(s, p, CodeDone(id, success, true));
    CloseCodeBooks(s.nativeActive, s.codeActive, s.begun, s.closed, id);
    BegunFacts(s.begun, s.pending, p, id);
    CodeTerminalMirrors(p, id, s.begun[id], s.sequence, |s.sent|, success);
    assert next == Write(noted, Data(r), true);
    SentOne(noted, r, next);
    CountOne(RecordsOf(s.sent), r.(sequence := |s.sent|), |s.pending|, Totals(s), |s.pending|, Totals(next));
    TakeTerminalMirrors(Held(s), |s.sent|, r.(sequence := |s.sent|), id, s.begun, s.pending, s.closed, p);
  }

  lemma NativeTerminalKind(p: Projector, i: Identity, sequence: nat, success: bool, payload: Json)
    ensures NativeTerminalRecord(p, i, sequence, success, payload).kind == NativeTerminal
  {}

  lemma NativeDoneIs(s: State, p: Projector, session: string, message: string, call: string, success: bool,
                     payload: Json)
    requires KeyFor(session, message, call) in s.nativeActive && p(payload).Shown?
    requires IdentityLacking(p, s.nativeActive[KeyFor(session, message, call)]) == 0
    ensures var key := KeyFor(session, message, call);
            var i := s.nativeActive[key];
            Act(s, p, NativeDone(session, message, call, success, payload, true))
            == Write(s.(nativeActive := s.nativeActive - {key}, nativeTerminals := s.nativeTerminals + 1,
                        closed := s.closed + {i.id}),
                     Data(NativeTerminalRecord(p, i, s.sequence, success, payload)), true)
  {}

  lemma NativeDoneMirrors(s: State, p: Projector, session: string, message: string, call: string, success: bool,
                          payload: Json)
    requires Enabled(s, NativeDone(session, message, call, success, payload, true))
    requires Mirror(s, p) && KeyFor(session, message, call) in s.nativeActive && p(payload).Shown?
    ensures Mirror(Act(s, p, NativeDone(session, message, call, success, payload, true)), p)
  {
    hide IntakeMirrors, BegunMirrors, ActiveMirrors, OuterMirrors, CountsMirror, Open, Take, Key, KeyFor, Act,
      IdentityLacking, RecordsOf, TerminalMirrors, NativeTerminalRecord;
    var key := KeyFor(session, message, call);
    var i := s.nativeActive[key];
    var r := NativeTerminalRecord(p, i, s.sequence, success, payload);
    var noted := s.(nativeActive := s.nativeActive - {key}, nativeTerminals := s.nativeTerminals + 1,
                    closed := s.closed + {i.id});
    var next := Write(noted, Data(r), true);
    CloseNativeBooks(s.nativeActive, s.codeActive, s.begun, s.closed, key);
    BegunFacts(s.begun, s.pending, p, i.id);
    NativeDoneIs(s, p, session, message, call, success, payload);
    NativeTerminalKind(p, i, s.sequence, success, payload);
    NativeTerminalMirrors(p, i.id, s.begun[i.id], s.sequence, |s.sent|, success, payload);
    SentOne(noted, r, next);
    CountOne(RecordsOf(s.sent), r.(sequence := |s.sent|), |s.pending|, Totals(s), |s.pending|, Totals(next));
    TakeTerminalMirrors(Held(s), |s.sent|, r.(sequence := |s.sent|), i.id, s.begun, s.pending, s.closed, p);
  }

  // ---------- whole runs ----------

  lemma OuterOnly(s: State, p: Projector, outer: map<string, string>)
    requires Mirror(s, p) && OuterMirrors(outer, s.begun)
    ensures Mirror(s.(activeOuter := outer), p)
  {
    hide IntakeMirrors, BegunMirrors, ActiveMirrors, OuterMirrors, CountsMirror, Open, Take, RecordsOf;
  }

  lemma OuterAdds(outer: map<string, string>, begun: map<string, Begun>, key: string, id: string)
    requires OuterMirrors(outer, begun)
    requires id in begun && begun[id].BegunNative? && Key(begun[id].identity) == key
    ensures OuterMirrors(outer[key := id], begun)
  {}

  lemma OuterDrops(outer: map<string, string>, begun: map<string, Begun>, key: string)
    requires OuterMirrors(outer, begun)
    ensures OuterMirrors(outer - {key}, begun)
  {}

  lemma ActiveIds(s: State, p: Projector, key: string)
    requires Mirror(s, p) && key in s.nativeActive
    ensures var id := s.nativeActive[key].id;
            && id in s.begun && s.begun[id].BegunNative? && Key(s.begun[id].identity) == key
            && IdentityLacking(p, s.nativeActive[key]) == 0
  {
    hide IntakeMirrors, OuterMirrors, IdentityLacking, CountsMirror, SentMirrors, Key;
  }

  // Beginning a native call on a free key, with or without entering it as the outer call of its key.
  lemma BeginWithOuter(s: State, p: Projector, i: Identity, hook: bool, outer: map<string, string>)
    requires Mirror(s, p) && FreshId(s, i.id) && Key(i) !in s.nativeActive && IdentityLacking(p, i) == 0
    requires hook ==> i.tool == "execute"
    requires outer == s.activeOuter || outer == s.activeOuter[Key(i) := i.id]
    ensures Mirror(BeginNative(s, p, i, hook).(activeOuter := outer), p)
  {
    hide IntakeMirrors, BegunMirrors, ActiveMirrors, OuterMirrors, CountsMirror, SentMirrors, Held, Key,
      IdentityLacking, FreshId;
    var next := BeginNative(s, p, i, hook);
    BeginMirrors(s, p, i, hook);
    OuterAdds(next.activeOuter, next.begun, Key(i), i.id);
    OuterOnly(next, p, outer);
  }

  // One quiet step keeps the mirror, whatever the callback.
  lemma QuietStep(s: State, p: Projector, a: Action)
    requires Enabled(s, a) && !a.Dispose?
    requires Mirror(s, p) && Quiet(s) && Quiet(Act(s, p, a))
    ensures Mirror(Act(s, p, a), p)
  {
    hide Mirror, IdentityLacking, Key, KeyFor, FreshId, NativeStartRecord, CodeStartRecord, NativeTerminalRecord,
      CodeTerminalRecord;
    match a
    case WrappedStart(i) =>
      BeginWithOuter(s, p, i, false, if i.tool == "execute" then s.activeOuter[Key(i) := i.id] else s.activeOuter);
    case HookStart(i) =>
      if Key(i) in s.nativeActive {
        HookAgain(s, p, Key(i));
      } else {
        BeginWithOuter(s, p, i, true, s.activeOuter[Key(i) := i.id]);
      }
    case StartWritten(id, parent, input, delivered) => StartWrittenMirrors(s, p, id, parent, input);
    case OuterDone(session, message, call) => OuterDoneMirrors(s, p, KeyFor(session, message, call));
    case CodeCalled(i, input, delivered) =>
      if Key(i) in s.activeOuter && s.activeOuter[Key(i)] != "" { CodeCalledMirrors(s, p, i, input); }
    case CodeDone(id, success, delivered) => CodeDoneMirrors(s, p, id, success);
    case NativeDone(session, message, call, success, payload, delivered) =>
      if KeyFor(session, message, call) in s.nativeActive {
        NativeDoneMirrors(s, p, session, message, call, success, payload);
      }
    case _ =>
  }

  lemma HookAgain(s: State, p: Projector, key: string)
    requires Mirror(s, p) && key in s.nativeActive
    ensures Mirror(s.(activeOuter := s.activeOuter[key := s.nativeActive[key].id]), p)
  {
    hide IntakeMirrors, BegunMirrors, ActiveMirrors, OuterMirrors, CountsMirror, SentMirrors, Held, Key;
    ActiveIds(s, p, key);
    OuterAdds(s.activeOuter, s.begun, key, s.nativeActive[key].id);
    OuterOnly(s, p, s.activeOuter[key := s.nativeActive[key].id]);
  }

  lemma OuterDoneMirrors(s: State, p: Projector, key: string)
    requires Mirror(s, p)
    ensures Mirror(s.(activeOuter := s.activeOuter - {key}), p)
  {
    hide IntakeMirrors, BegunMirrors, ActiveMirrors, OuterMirrors, CountsMirror, SentMirrors, Held;
    OuterDrops(s.activeOuter, s.begun, key);
    OuterOnly(s, p, s.activeOuter - {key});
  }

  // Trouble is never forgotten.
  lemma QuietBefore(s: State, p: Projector, a: Action)
    requires Enabled(s, a) && Quiet(Act(s, p, a))
    ensures Quiet(s)
  {}

  lemma {:induction false} QuietFromTheStart(s: State, p: Projector, actions: seq<Action>)
    requires Runs(s, p, actions) && Quiet(After(s, p, actions))
    ensures Quiet(s)
    decreases |actions|
  {
    if actions != [] {
      QuietFromTheStart(Act(s, p, actions[0]), p, actions[1..]);
      QuietBefore(s, p, actions[0]);
    }
  }

  predicate NoDispose(actions: seq<Action>) {
    forall k :: 0 <= k < |actions| ==> !actions[k].Dispose?
  }

  // AFTER ANY QUIET RUN the builder's intake of what was sent mirrors the observer's books.
  lemma {:induction false} QuietRunMirrors(s: State, p: Projector, actions: seq<Action>)
    requires Mirror(s, p) && Runs(s, p, actions) && NoDispose(actions) && Quiet(After(s, p, actions))
    ensures Mirror(After(s, p, actions), p)
    decreases |actions|
  {
    hide Mirror, Act, Quiet, Enabled;
    if actions != [] {
      var next := Act(s, p, actions[0]);
      QuietFromTheStart(next, p, actions[1..]);
      QuietFromTheStart(s, p, actions);
      QuietStep(s, p, actions[0]);
      QuietRunMirrors(next, p, actions[1..]);
    }
  }
}
