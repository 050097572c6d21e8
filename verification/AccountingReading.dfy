// What the accounting makes of any stream, however damaged: every counter is a number of positions, and every issue
// code of a boundary is left there by an event that earns it.

module AccountingReading {
  import opened Wrappers
  import opened Sequences
  import opened Vocabulary
  import opened Accounting
  import opened AccountingSpec
  import opened AccountingLaws
  import opened AccountingDetail

  // ---------- what one event of a stream is, in view of those before it ----------

  predicate Readable(s: seq<Item>, k: nat) { k < |s| && Decode(s[k]).Some? }

  function EntryAt(s: seq<Item>, k: nat): Entry
    requires Readable(s, k)
  {
    Decode(s[k]).value
  }

  // Its sequence number was used before.
  predicate Repeats(s: seq<Item>, k: nat) {
    Readable(s, k) && exists j: nat :: j < k && Readable(s, j) && EntryAt(s, j).sequence == EntryAt(s, k).sequence
  }

  predicate Fresh(s: seq<Item>, k: nat) { Readable(s, k) && !Repeats(s, k) }

  predicate StartsCall(s: seq<Item>, k: nat, id: string) {
    Fresh(s, k) && EntryAt(s, k).kind.Start? && EntryAt(s, k).id == id
  }

  // The first start of its invocation.
  predicate Begins(s: seq<Item>, k: nat, id: string) {
    StartsCall(s, k, id) && forall j: nat :: j < k ==> !StartsCall(s, j, id)
  }

  predicate EndsCall(s: seq<Item>, k: nat, id: string) {
    Fresh(s, k) && EntryAt(s, k).kind.Terminal? && EntryAt(s, k).id == id
  }

  // A terminal that fits the call begun at j: later, at the same boundary and with a larger sequence number.
  predicate Answers(s: seq<Item>, k: nat, j: nat, id: string) {
    && j < k && Begins(s, j, id) && EndsCall(s, k, id)
    && EntryAt(s, k).boundary == EntryAt(s, j).boundary && EntryAt(s, k).sequence > EntryAt(s, j).sequence
  }

  predicate Answered(s: seq<Item>, m: nat, j: nat, id: string) {
    exists i: nat :: i < m && Answers(s, i, j, id)
  }

  // The first that does.
  predicate Closes(s: seq<Item>, k: nat, j: nat, id: string) {
    Answers(s, k, j, id) && !Answered(s, k, j, id)
  }

  predicate Known(s: seq<Item>, m: nat, id: string) {
    exists j: nat :: j < m && Begins(s, j, id)
  }

  // A terminal of a known call that does not close it.
  predicate Clashes(s: seq<Item>, k: nat, j: nat, id: string) {
    j < k && Begins(s, j, id) && EndsCall(s, k, id) && !Closes(s, k, j, id)
  }

  // The event at k leaves this code at boundary n.
  ghost predicate Leaves(s: seq<Item>, k: nat, n: string, c: Code)
    requires Readable(s, k)
  {
    var e := EntryAt(s, k);
    match c
    case DuplicateSequence => Repeats(s, k) && n == e.boundary
    case RequiredFieldOmitted => Fresh(s, k) && n == e.boundary && Omitted in e.states
    case RequiredFieldUnsupported => Fresh(s, k) && n == e.boundary && NotSupported in e.states
    case DuplicateInvocation => StartsCall(s, k, e.id) && !Begins(s, k, e.id) && n == e.boundary
    case TerminalWithoutStart => EndsCall(s, k, e.id) && !Known(s, k, e.id) && n == e.boundary
    case AmbiguousTerminal =>
      exists j: nat :: Clashes(s, k, j, e.id) && (n == e.boundary || n == EntryAt(s, j).boundary)
    case _ => false
  }

  ghost predicate SomeLeaves(s: seq<Item>, n: string, c: Code) {
    exists k: nat :: Readable(s, k) && Leaves(s, k, n, c)
  }

  ghost predicate Visited(s: seq<Item>, n: string) {
    exists k: nat :: Readable(s, k) && EntryAt(s, k).boundary == n
  }

  predicate IsDeclared(n: string, declared: Declared) { n in declared.supported || n in declared.unsupported }

  predicate FromDeclaration(n: string, declared: Declared, c: Code) {
    || (c == UnsupportedBoundary && n in declared.unsupported)
    || (c == UndeclaredBoundary && !IsDeclared(n, declared))
  }

  // ---------- a ledger that reads the stream so ----------

  ghost predicate ReadsCalls(l: Ledger, s: seq<Item>) {
    && (forall x :: x in l.seen <==> exists k: nat :: Readable(s, k) && EntryAt(s, k).sequence == x)
    && (forall id :: id in l.calls <==> Known(s, |s|, id))
    && (forall k: nat, id :: Begins(s, k, id) ==>
          && id in l.calls && l.calls[id].boundary == EntryAt(s, k).boundary
          && l.calls[id].start == EntryAt(s, k).sequence
          && (l.calls[id].terminal.Some? <==> Answered(s, |s|, k, id)))
  }

  ghost predicate ReadsBoundaries(l: Ledger, s: seq<Item>, declared: Declared) {
    && (forall n :: n in l.boundaries <==> IsDeclared(n, declared) || Visited(s, n))
    && (forall n, c :: n in l.boundaries ==>
          (c in l.boundaries[n].issues <==> FromDeclaration(n, declared, c) || SomeLeaves(s, n, c)))
  }

  // ---------- one event more ----------

  // What an event is does not depend on those after it.
  lemma OneMore(s: seq<Item>, item: Item)
    ensures var t := s + [item];
            && (forall k: nat :: k < |s| ==> (Readable(t, k) <==> Readable(s, k)))
            && (forall k: nat :: Readable(s, k) ==> EntryAt(t, k) == EntryAt(s, k))
            && (forall k: nat :: k < |s| ==> (Repeats(t, k) <==> Repeats(s, k)))
            && (forall k: nat :: k < |s| ==> (Fresh(t, k) <==> Fresh(s, k)))
  {}

  lemma OneMoreCall(s: seq<Item>, item: Item)
    ensures var t := s + [item];
            && (forall k: nat, id :: k < |s| ==> (StartsCall(t, k, id) <==> StartsCall(s, k, id)))
            && (forall k: nat, id :: k < |s| ==> (EndsCall(t, k, id) <==> EndsCall(s, k, id)))
            && (forall k: nat, id :: k < |s| ==> (Begins(t, k, id) <==> Begins(s, k, id)))
  {
    OneMore(s, item);
    hide Repeats, Fresh;
  }

  lemma OneMoreAnswer(s: seq<Item>, item: Item)
    ensures var t := s + [item];
            && (forall k: nat, j: nat, id :: k < |s| ==> (Answers(t, k, j, id) <==> Answers(s, k, j, id)))
            && (forall m: nat, j: nat, id :: m <= |s| ==> (Answered(t, m, j, id) <==> Answered(s, m, j, id)))
            && (forall m: nat, id :: m <= |s| ==> (Known(t, m, id) <==> Known(s, m, id)))
            && (forall k: nat, j: nat, id :: k < |s| ==> (Clashes(t, k, j, id) <==> Clashes(s, k, j, id)))
  {
    OneMore(s, item);
    OneMoreCall(s, item);
    hide Repeats, Fresh, StartsCall, EndsCall, Begins;
  }

  lemma LeavesOneMore(s: seq<Item>, item: Item, n: string, c: Code)
    ensures var t := s + [item];
            && (SomeLeaves(t, n, c) <==> SomeLeaves(s, n, c) || (Readable(t, |s|) && Leaves(t, |s|, n, c)))
            && (Visited(t, n) <==> Visited(s, n) || (Readable(t, |s|) && EntryAt(t, |s|).boundary == n))
  {
    hide Repeats, Fresh, StartsCall, EndsCall, Begins, Clashes, Known;
    var t := s + [item];
    OneMore(s, item);
    OneMoreCall(s, item);
    OneMoreAnswer(s, item);
    forall k: nat | Readable(s, k) ensures Leaves(t, k, n, c) <==> Leaves(s, k, n, c) {
      SameLeaves(s, t, k, n, c);
    }
    if SomeLeaves(s, n, c) {
      var k: nat :| Readable(s, k) && Leaves(s, k, n, c);
      assert Readable(t, k) && Leaves(t, k, n, c);
    }
    if SomeLeaves(t, n, c) {
      var k: nat :| Readable(t, k) && Leaves(t, k, n, c);
      assert k == |s| || (Readable(s, k) && Leaves(s, k, n, c));
    }
    if Visited(s, n) {
      var k: nat :| Readable(s, k) && EntryAt(s, k).boundary == n;
      assert Readable(t, k) && EntryAt(t, k).boundary == n;
    }
  }

  lemma SameLeaves(s: seq<Item>, t: seq<Item>, k: nat, n: string, c: Code)
    requires Readable(s, k) && Readable(t, k) && EntryAt(s, k) == EntryAt(t, k)
    requires Repeats(t, k) <==> Repeats(s, k)
    requires Fresh(t, k) <==> Fresh(s, k)
    requires forall id :: (StartsCall(t, k, id) <==> StartsCall(s, k, id)) && (Begins(t, k, id) <==> Begins(s, k, id))
    requires forall id :: (EndsCall(t, k, id) <==> EndsCall(s, k, id)) && (Known(t, k, id) <==> Known(s, k, id))
    requires forall j: nat, id :: Clashes(t, k, j, id) <==> Clashes(s, k, j, id)
    requires forall j: nat :: j < k && Readable(s, j) ==> Readable(t, j) && EntryAt(t, j) == EntryAt(s, j)
    ensures Leaves(t, k, n, c) <==> Leaves(s, k, n, c)
  {
    hide Repeats, Known, Closes;
    assert forall j: nat, id :: Clashes(s, k, j, id) ==> j < k && Readable(s, j);
  }

  // ---------- the same seen from the ledger ----------

  ghost predicate LeavesNow(l: Ledger, e: Entry, n: string, c: Code) {
    if e.sequence in l.seen then c == DuplicateSequence && n == e.boundary
    else
      || (n == e.boundary && c == RequiredFieldOmitted && Omitted in e.states)
      || (n == e.boundary && c == RequiredFieldUnsupported && NotSupported in e.states)
      || (n == e.boundary && c == DuplicateInvocation && e.kind.Start? && e.id in l.calls)
      || (n == e.boundary && c == TerminalWithoutStart && e.kind.Terminal? && e.id !in l.calls)
      || (c == AmbiguousTerminal && e.kind.Terminal? && e.id in l.calls
          && !ClosesNow(l, e) && (n == e.boundary || n == l.calls[e.id].boundary))
  }

  ghost predicate ClosesNow(l: Ledger, e: Entry)
    requires e.id in l.calls
  {
    var call := l.calls[e.id];
    call.boundary == e.boundary && call.terminal.None? && e.sequence > call.start
  }

  lemma {:induction false} SomeoneBegan(s: seq<Item>, k: nat, id: string)
    requires StartsCall(s, k, id)
    ensures exists j: nat :: j <= k && Begins(s, j, id)
  {
    hide StartsCall;
    if !Begins(s, k, id) {
      var j: nat :| j < k && StartsCall(s, j, id);
      SomeoneBegan(s, j, id);
    }
  }

  // The ledger's own tests say of the next event what its place in the stream says.
  lemma NextEvent(l: Ledger, s: seq<Item>, item: Item, e: Entry)
    requires ReadsCalls(l, s) && Decode(item) == Some(e)
    ensures var t, m := s + [item], |s|;
            && Readable(t, m) && EntryAt(t, m) == e
            && (Repeats(t, m) <==> e.sequence in l.seen)
            && (Known(t, m, e.id) <==> e.id in l.calls)
            && (StartsCall(t, m, e.id) <==> e.sequence !in l.seen && e.kind.Start?)
            && (EndsCall(t, m, e.id) <==> e.sequence !in l.seen && e.kind.Terminal?)
            && (Begins(t, m, e.id) <==> StartsCall(t, m, e.id) && e.id !in l.calls)
            && (forall j: nat :: j < m && Begins(t, j, e.id) ==>
                  && e.id in l.calls && EntryAt(t, j).boundary == l.calls[e.id].boundary
                  && (Closes(t, m, j, e.id) <==> EndsCall(t, m, e.id) && ClosesNow(l, e)))
  {
    var t, m := s + [item], |s|;
    OneMore(s, item);
    OneMoreCall(s, item);
    OneMoreAnswer(s, item);
    assert Repeats(t, m) <==> e.sequence in l.seen by {
      if e.sequence in l.seen {
        var k: nat :| Readable(s, k) && EntryAt(s, k).sequence == e.sequence;
        assert Readable(t, k) && EntryAt(t, k).sequence == e.sequence;
      }
    }
    hide Repeats;
    if StartsCall(t, m, e.id) {
      if j: nat :| j < m && StartsCall(t, j, e.id) {
        SomeoneBegan(s, j, e.id);
      }
    }
  }

  lemma LeavesIsNow(l: Ledger, s: seq<Item>, item: Item, e: Entry, n: string, c: Code)
    requires ReadsCalls(l, s) && Decode(item) == Some(e)
    ensures Readable(s + [item], |s|)
    ensures Leaves(s + [item], |s|, n, c) <==> LeavesNow(l, e, n, c)
  {
    hide Repeats, StartsCall, EndsCall, Begins, Closes, ReadsCalls, Readable;
    var t, m := s + [item], |s|;
    NextEvent(l, s, item, e);
  }

  ghost predicate CallsReached(l: Ledger) {
    forall id :: id in l.calls ==> l.calls[id].boundary in l.boundaries
  }

  // The issues of a boundary after one event: those it had, one for a boundary nobody declared, and what the event
  // leaves.
  lemma PostLeaves(l: Ledger, e: Entry, declared: Declared)
    requires CallsReached(l)
    ensures var next := Post(l, e, declared);
            && next.boundaries.Keys == l.boundaries.Keys + {e.boundary}
            && forall n, c :: n in next.boundaries ==>
                 (c in next.boundaries[n].issues <==>
                   || (n in l.boundaries && c in l.boundaries[n].issues)
                   || (n == e.boundary && c == UndeclaredBoundary && !IsDeclared(n, declared))
                   || LeavesNow(l, e, n, c))
  {
    hide Reach, Charge, Post, Mark, ClosesNow;
    PostShape(l, e, declared);
    var b := Reach(l.boundaries, e.boundary, declared);
    var charged := Charge(b, e.states);
    ReachIssues(l.boundaries, e.boundary, declared);
    ChargeIssues(b, e.states);
    MarkIssues(b, DuplicateSequence);
    MarkIssues(charged, DuplicateInvocation);
    MarkIssues(charged, TerminalWithoutStart);
    MarkIssues(charged, AmbiguousTerminal);
    if e.id in l.calls {
      var marked := l.boundaries[e.boundary := Mark(charged, Invalid, AmbiguousTerminal)];
      MarkIssues(marked[l.calls[e.id].boundary], AmbiguousTerminal);
    }
  }

  lemma MarkIssues(b: Boundary, code: Code)
    ensures forall c :: c in Mark(b, Invalid, code).issues <==> c in b.issues || c == code
  {
    AddNewMembers(b.issues, code);
  }

  lemma PostShape(l: Ledger, e: Entry, declared: Declared)
    requires CallsReached(l)
    ensures var b := Reach(l.boundaries, e.boundary, declared);
            var charged := Charge(b, e.states);
            Post(l, e, declared).boundaries
            == if e.sequence in l.seen then l.boundaries[e.boundary := Mark(b, Invalid, DuplicateSequence)]
               else if e.kind.Start? && e.id in l.calls then
                 l.boundaries[e.boundary := Mark(charged, Invalid, DuplicateInvocation)]
               else if e.kind.Start? then l.boundaries[e.boundary := charged.(starts := charged.starts + 1)]
               else if e.id !in l.calls then
                 l.boundaries[e.boundary := Mark(charged, Invalid, TerminalWithoutStart)]
               else if ClosesNow(l, e) then
                 l.boundaries[e.boundary := charged.(terminals := charged.terminals + 1)]
               else
                 var marked := l.boundaries[e.boundary := Mark(charged, Invalid, AmbiguousTerminal)];
                 var n := l.calls[e.id].boundary;
                 marked[n := Mark(marked[n], Invalid, AmbiguousTerminal)]
  {
    hide Reach, Charge, CountOf, Mark;
  }

  lemma ReachIssues(boundaries: map<string, Boundary>, n: string, declared: Declared)
    ensures forall c :: c in Reach(boundaries, n, declared).issues <==>
              || (n in boundaries && c in boundaries[n].issues)
              || (c == UndeclaredBoundary && !IsDeclared(n, declared))
  {
    AddNewMembers((if n in boundaries then boundaries[n] else NEW_BOUNDARY).issues, UndeclaredBoundary);
  }

  lemma PostCallsRead(l: Ledger, e: Entry, declared: Declared)
    ensures var next := Post(l, e, declared);
            && next.seen == l.seen + {e.sequence}
            && next.calls == CallsAfter(l, e)
  {
    hide Reach, Charge, CountOf, Mark;
  }

  lemma StepReadsCalls(l: Ledger, s: seq<Item>, item: Item, declared: Declared)
    requires ReadsCalls(l, s)
    ensures ReadsCalls(Step(l, item, declared), s + [item])
  {
    var t, m := s + [item], |s|;
    OneMore(s, item);
    OneMoreCall(s, item);
    OneMoreAnswer(s, item);
    match Decode(item)
    case None =>
      NothingRead(l, s, item);
    case Some(e) =>
      NextEvent(l, s, item, e);
      PostCallsRead(l, e, declared);
      EventRead(l, Post(l, e, declared), s, item, e);
  }

  lemma NothingRead(l: Ledger, s: seq<Item>, item: Item)
    requires ReadsCalls(l, s) && Decode(item).None?
    ensures forall next: Ledger :: next.seen == l.seen && next.calls == l.calls ==> ReadsCalls(next, s + [item])
  {
    OneMore(s, item);
    OneMoreCall(s, item);
    OneMoreAnswer(s, item);
    hide Repeats;
  }

  lemma EventRead(l: Ledger, next: Ledger, s: seq<Item>, item: Item, e: Entry)
    requires ReadsCalls(l, s) && Decode(item) == Some(e)
    requires next.seen == l.seen + {e.sequence}
    requires next.calls == CallsAfter(l, e)
    ensures ReadsCalls(next, s + [item])
  {
    hide Repeats, Fresh, StartsCall, EndsCall, Begins, Answers, Answered, Known, ReadsCalls, Readable, ClosesNow;
    SequencesRead(l, s, item, e);
    forall id ensures id in next.calls <==> Known(s + [item], |s| + 1, id) { KnownRead(l, s, item, e, id); }
    forall k: nat, id | Begins(s + [item], k, id)
      ensures && Readable(s + [item], k) && id in next.calls
              && next.calls[id].boundary == EntryAt(s + [item], k).boundary
              && next.calls[id].start == EntryAt(s + [item], k).sequence
              && (next.calls[id].terminal.Some? <==> Answered(s + [item], |s| + 1, k, id))
    {
      CallRead(l, s, item, e, k, id);
    }
    Gathered(next, s + [item]);
  }

  lemma Gathered(l: Ledger, s: seq<Item>)
    requires forall x :: x in l.seen <==> exists k: nat :: Readable(s, k) && EntryAt(s, k).sequence == x
    requires forall id :: id in l.calls <==> Known(s, |s|, id)
    requires forall k: nat, id :: Begins(s, k, id) ==>
               && Readable(s, k) && id in l.calls && l.calls[id].boundary == EntryAt(s, k).boundary
               && l.calls[id].start == EntryAt(s, k).sequence
               && (l.calls[id].terminal.Some? <==> Answered(s, |s|, k, id))
    ensures ReadsCalls(l, s)
  {}

  ghost function CallsAfter(l: Ledger, e: Entry): map<string, Call> {
    if e.sequence in l.seen then l.calls
    else if e.kind.Start? then
      if e.id in l.calls then l.calls else l.calls[e.id := Call(e.boundary, e.sequence, None)]
    else if e.id in l.calls && ClosesNow(l, e) then
      l.calls[e.id := l.calls[e.id].(terminal := Some(e.sequence))]
    else l.calls
  }

  lemma SequencesRead(l: Ledger, s: seq<Item>, item: Item, e: Entry)
    requires ReadsCalls(l, s) && Decode(item) == Some(e)
    ensures forall x :: x in l.seen + {e.sequence} <==>
              exists k: nat :: Readable(s + [item], k) && EntryAt(s + [item], k).sequence == x
  {
    OneMore(s, item);
    hide Repeats, Known, Begins, Answered, Fresh;
    var t := s + [item];
    assert Readable(t, |s|) && EntryAt(t, |s|) == e;
    forall x | x in l.seen ensures exists k: nat :: Readable(t, k) && EntryAt(t, k).sequence == x {
      var k: nat :| Readable(s, k) && EntryAt(s, k).sequence == x;
      assert Readable(t, k) && EntryAt(t, k).sequence == x;
    }
  }

  lemma KnownRead(l: Ledger, s: seq<Item>, item: Item, e: Entry, id: string)
    requires ReadsCalls(l, s) && Decode(item) == Some(e)
    ensures id in CallsAfter(l, e) <==> Known(s + [item], |s| + 1, id)
  {
    var t, m := s + [item], |s|;
    OneMoreCall(s, item);
    OneMoreAnswer(s, item);
    NextEvent(l, s, item, e);
    assert Begins(t, m, id) ==> id == e.id;
    hide Repeats, Fresh, StartsCall, EndsCall, Answered, Begins, Closes, ClosesNow;
    assert Known(s, m, id) <==> id in l.calls;
    if j: nat :| j < m + 1 && Begins(t, j, id) {
      assert j < m ==> Known(t, m, id);
    }
    if Known(t, m, id) {
      var j: nat :| j < m && Begins(t, j, id);
      assert j < m + 1;
    }
  }

  lemma CallRead(l: Ledger, s: seq<Item>, item: Item, e: Entry, k: nat, id: string)
    requires ReadsCalls(l, s) && Decode(item) == Some(e) && Begins(s + [item], k, id)
    ensures var t, calls := s + [item], CallsAfter(l, e);
            && Readable(t, k) && id in calls && calls[id].boundary == EntryAt(t, k).boundary
            && calls[id].start == EntryAt(t, k).sequence
            && (calls[id].terminal.Some? <==> Answered(t, |s| + 1, k, id))
  {
    var t, m := s + [item], |s|;
    OneMore(s, item);
    OneMoreCall(s, item);
    OneMoreAnswer(s, item);
    NextEvent(l, s, item, e);
    AnsweredMore(t, m, k, id);
    assert Readable(t, k) && EntryAt(t, k).id == id && EntryAt(t, k).kind.Start?;
    assert EndsCall(t, m, id) ==> id == e.id;
    if k == m {
      assert !Answered(t, m, k, id) && !Answers(t, m, k, id);
    } else {
      assert Begins(s, k, id) && (Answered(t, m, k, id) <==> Answered(s, m, k, id));
    }
    hide Repeats, Fresh, StartsCall, EndsCall, Answered, Begins, Known;
  }

  lemma AnsweredMore(t: seq<Item>, m: nat, k: nat, id: string)
    ensures Answered(t, m + 1, k, id) <==> Answered(t, m, k, id) || Answers(t, m, k, id)
  {
    hide Answers;
    if Answered(t, m, k, id) {
      var i: nat :| i < m && Answers(t, i, k, id);
      assert i < m + 1;
    }
    if i: nat :| i < m + 1 && Answers(t, i, k, id) { assert i < m ==> Answered(t, m, k, id); }
  }

  lemma LeavesWhereVisited(s: seq<Item>, n: string, c: Code)
    ensures SomeLeaves(s, n, c) ==> Visited(s, n)
  {
    if SomeLeaves(s, n, c) {
      var k: nat :| Readable(s, k) && Leaves(s, k, n, c);
      if EntryAt(s, k).boundary != n {
        var j: nat :| Clashes(s, k, j, EntryAt(s, k).id) && n == EntryAt(s, j).boundary;
        assert Readable(s, j);
      }
    }
  }

  lemma StepReadsBoundaries(l: Ledger, s: seq<Item>, item: Item, declared: Declared)
    requires ReadsCalls(l, s) && ReadsBoundaries(l, s, declared) && CallsReached(l)
    ensures ReadsBoundaries(Step(l, item, declared), s + [item], declared)
  {
    hide Repeats, Fresh, StartsCall, EndsCall, Begins, Clashes, Known, ReadsCalls, Leaves, Post, LeavesNow,
      CallsReached, SomeLeaves, Visited;
    var t := s + [item];
    forall n, c
      ensures SomeLeaves(t, n, c) <==> SomeLeaves(s, n, c) || (Readable(t, |s|) && Leaves(t, |s|, n, c))
    {
      LeavesOneMore(s, item, n, c);
    }
    forall n ensures Visited(t, n) <==> Visited(s, n) || (Readable(t, |s|) && EntryAt(t, |s|).boundary == n) {
      LeavesOneMore(s, item, n, MissingTerminal);
    }
    forall n, c ensures SomeLeaves(s, n, c) ==> Visited(s, n) { LeavesWhereVisited(s, n, c); }
    assert t[|s|] == item;
    match Decode(item)
    case None =>
      assert !Readable(t, |s|);
    case Some(e) =>
      NextEvent(l, s, item, e);
      PostLeaves(l, e, declared);
      forall n, c ensures Leaves(t, |s|, n, c) <==> LeavesNow(l, e, n, c) { LeavesIsNow(l, s, item, e, n, c); }
      LeavesAtKnown(l, e);
      hide Readable, EntryAt;
  }

  // Nothing is left at a boundary the ledger does not hold, save that of the event itself.
  lemma LeavesAtKnown(l: Ledger, e: Entry)
    requires CallsReached(l)
    ensures forall n, c :: LeavesNow(l, e, n, c) ==> n == e.boundary || n in l.boundaries
  {}

  // ---------- counters ----------

  datatype Tally =
    | StartsAt(boundary: string) | TerminalsAt(boundary: string)
    | Unreadable | RepeatedSequence | RepeatedStart | StrayTerminal

  ghost predicate Tallied(s: seq<Item>, k: nat, what: Tally)
    requires k < |s|
  {
    match what
    case StartsAt(n) => Readable(s, k) && Begins(s, k, EntryAt(s, k).id) && EntryAt(s, k).boundary == n
    case TerminalsAt(n) =>
      && Readable(s, k) && EntryAt(s, k).boundary == n
      && exists j: nat :: j < k && Closes(s, k, j, EntryAt(s, k).id)
    case Unreadable => !Readable(s, k)
    case RepeatedSequence => Repeats(s, k)
    case RepeatedStart => Readable(s, k) && StartsCall(s, k, EntryAt(s, k).id) && !Begins(s, k, EntryAt(s, k).id)
    case StrayTerminal =>
      && Readable(s, k) && EndsCall(s, k, EntryAt(s, k).id)
      && !exists j: nat :: j < k && Closes(s, k, j, EntryAt(s, k).id)
  }

  // How many of the first m events are of this kind.
  ghost function Number(s: seq<Item>, m: nat, what: Tally): nat
    requires m <= |s|
  {
    if m == 0 then 0 else Number(s, m - 1, what) + if Tallied(s, m - 1, what) then 1 else 0
  }

  // How many required fields of the fresh ones at n are in this state.
  ghost function FieldNumber(s: seq<Item>, m: nat, n: string, state: FieldState): nat
    requires m <= |s|
  {
    if m == 0 then 0
    else
      FieldNumber(s, m - 1, n, state)
      + if Fresh(s, m - 1) && EntryAt(s, m - 1).boundary == n then CountOf(EntryAt(s, m - 1).states, state) else 0
  }

  ghost predicate ReadsCounts(l: Ledger, s: seq<Item>) {
    && (forall n :: n in l.boundaries ==>
          && l.boundaries[n].starts == Number(s, |s|, StartsAt(n))
          && l.boundaries[n].terminals == Number(s, |s|, TerminalsAt(n))
          && l.boundaries[n].omitted == FieldNumber(s, |s|, n, Omitted)
          && l.boundaries[n].unsupportedFields == FieldNumber(s, |s|, n, NotSupported))
    && l.totals.malformed == Number(s, |s|, Unreadable)
    && l.totals.duplicateSequences == Number(s, |s|, RepeatedSequence)
    && l.totals.duplicateInvocations == Number(s, |s|, RepeatedStart)
    && l.totals.ambiguous == Number(s, |s|, StrayTerminal)
  }

  lemma SameTally(s: seq<Item>, item: Item, k: nat, what: Tally)
    requires k < |s|
    ensures Tallied(s + [item], k, what) <==> Tallied(s, k, what)
  {
    OneMore(s, item);
    OneMoreCall(s, item);
    OneMoreAnswer(s, item);
    var t := s + [item];
    forall j: nat, id ensures Closes(t, k, j, id) <==> Closes(s, k, j, id) {}
    assert Readable(t, k) <==> Readable(s, k);
    hide Repeats, Fresh, StartsCall, EndsCall, Begins, Closes, Readable;
    if Readable(s, k) { assert EntryAt(t, k) == EntryAt(s, k); }
  }

  lemma {:induction false} NumberOneMore(s: seq<Item>, item: Item, m: nat, what: Tally)
    requires m <= |s|
    ensures Number(s + [item], m, what) == Number(s, m, what)
  {
    hide Tallied;
    if m > 0 {
      NumberOneMore(s, item, m - 1, what);
      SameTally(s, item, m - 1, what);
    }
  }

  lemma {:induction false} FieldNumberOneMore(s: seq<Item>, item: Item, m: nat, n: string, state: FieldState)
    requires m <= |s|
    ensures FieldNumber(s + [item], m, n, state) == FieldNumber(s, m, n, state)
  {
    hide Fresh, CountOf;
    if m > 0 {
      FieldNumberOneMore(s, item, m - 1, n, state);
      OneMore(s, item);
    }
  }

  // Nothing is counted where no event was.
  lemma {:induction false} NothingNumbered(s: seq<Item>, m: nat, n: string)
    requires m <= |s| && !Visited(s, n)
    ensures Number(s, m, StartsAt(n)) == 0 && Number(s, m, TerminalsAt(n)) == 0
    ensures forall state :: FieldNumber(s, m, n, state) == 0
  {
    hide Begins, Closes, Fresh;
    if m > 0 {
      NothingNumbered(s, m - 1, n);
      assert Readable(s, m - 1) ==> EntryAt(s, m - 1).boundary != n;
      FreshIsReadable(s, m - 1);
    }
  }

  lemma FreshIsReadable(s: seq<Item>, k: nat)
    ensures Fresh(s, k) ==> Readable(s, k)
  {}

  // ---------- the counters after one event ----------

  // Which of its counters an event moves.
  ghost predicate TalliedNow(l: Ledger, e: Entry, what: Tally) {
    match what
    case StartsAt(n) => n == e.boundary && e.sequence !in l.seen && e.kind.Start? && e.id !in l.calls
    case TerminalsAt(n) =>
      n == e.boundary && e.sequence !in l.seen && e.kind.Terminal? && e.id in l.calls && ClosesNow(l, e)
    case Unreadable => false
    case RepeatedSequence => e.sequence in l.seen
    case RepeatedStart => e.sequence !in l.seen && e.kind.Start? && e.id in l.calls
    case StrayTerminal => e.sequence !in l.seen && e.kind.Terminal? && (e.id in l.calls ==> !ClosesNow(l, e))
  }

  lemma TalliedIsNow(l: Ledger, s: seq<Item>, item: Item, e: Entry, what: Tally)
    requires ReadsCalls(l, s) && Decode(item) == Some(e)
    ensures Tallied(s + [item], |s|, what) <==> TalliedNow(l, e, what)
  {
    var t, m := s + [item], |s|;
    NextEvent(l, s, item, e);
    hide Repeats, StartsCall, EndsCall, Begins, Closes, ReadsCalls, Readable, ClosesNow;
    if e.id in l.calls {
      var j: nat :| j < m && Begins(t, j, e.id);
      assert Closes(t, m, j, e.id) <==> EndsCall(t, m, e.id) && ClosesNow(l, e);
    }
    forall j: nat | Closes(t, m, j, e.id) ensures j < m && Begins(t, j, e.id) { CloserFollows(t, m, j, e.id); }
  }

  lemma CloserFollows(t: seq<Item>, m: nat, j: nat, id: string)
    requires Closes(t, m, j, id)
    ensures j < m && Begins(t, j, id)
  {}

  lemma PostCounts(l: Ledger, e: Entry, declared: Declared, n: string)
    requires CallsReached(l)
    requires n == e.boundary || n in l.boundaries
    ensures var next := Post(l, e, declared);
            var b := if n in l.boundaries then l.boundaries[n] else NEW_BOUNDARY;
            var here := n == e.boundary && e.sequence !in l.seen;
            && n in next.boundaries
            && next.boundaries[n].starts == b.starts + (if TalliedNow(l, e, StartsAt(n)) then 1 else 0)
            && next.boundaries[n].terminals == b.terminals + (if TalliedNow(l, e, TerminalsAt(n)) then 1 else 0)
            && next.boundaries[n].omitted == b.omitted + (if here then CountOf(e.states, Omitted) else 0)
            && next.boundaries[n].unsupportedFields
               == b.unsupportedFields + (if here then CountOf(e.states, NotSupported) else 0)
  {
    var b := Reach(l.boundaries, e.boundary, declared);
    PostShape(l, e, declared);
    ChargeCounts(b, e.states);
    hide Post, Charge, CountOf, ClosesNow;
  }

  lemma {:induction false} ChargeCounts(b: Boundary, states: seq<FieldState>)
    ensures var c := Charge(b, states);
            && c.starts == b.starts && c.terminals == b.terminals
            && c.omitted == b.omitted + CountOf(states, Omitted)
            && c.unsupportedFields == b.unsupportedFields + CountOf(states, NotSupported)
  {
    if states != [] { ChargeCounts(b, states[..|states| - 1]); }
  }

  lemma PostFaults(l: Ledger, e: Entry, declared: Declared)
    ensures var t, u := l.totals, Post(l, e, declared).totals;
            && u.malformed == t.malformed
            && u.duplicateSequences == t.duplicateSequences + (if TalliedNow(l, e, RepeatedSequence) then 1 else 0)
            && u.duplicateInvocations == t.duplicateInvocations + (if TalliedNow(l, e, RepeatedStart) then 1 else 0)
            && u.ambiguous == t.ambiguous + (if TalliedNow(l, e, StrayTerminal) then 1 else 0)
  {
    hide Reach, Charge, CountOf, Mark;
  }

  lemma NumberNext(l: Ledger, s: seq<Item>, item: Item, what: Tally)
    requires ReadsCalls(l, s)
    ensures Number(s + [item], |s| + 1, what)
            == Number(s, |s|, what)
               + if Decode(item).None? then (if what == Unreadable then 1 else 0)
                 else if TalliedNow(l, Decode(item).value, what) then 1 else 0
  {
    hide ReadsCalls, TalliedNow;
    var t := s + [item];
    assert t[|s|] == item;
    NumberOneMore(s, item, |s|, what);
    if Decode(item).Some? { TalliedIsNow(l, s, item, Decode(item).value, what); }
    else { NothingTallied(t, |s|, what); }
    hide Tallied;
  }

  lemma NothingTallied(t: seq<Item>, k: nat, what: Tally)
    requires k < |t| && !Readable(t, k)
    ensures Tallied(t, k, what) <==> what == Unreadable
  {}

  lemma FieldNumberNext(l: Ledger, s: seq<Item>, item: Item, n: string, state: FieldState)
    requires ReadsCalls(l, s)
    ensures FieldNumber(s + [item], |s| + 1, n, state)
            == FieldNumber(s, |s|, n, state)
               + if Decode(item).Some? && Decode(item).value.boundary == n
                    && Decode(item).value.sequence !in l.seen
                 then CountOf(Decode(item).value.states, state) else 0
  {
    var t := s + [item];
    assert t[|s|] == item;
    FieldNumberOneMore(s, item, |s|, n, state);
    if Decode(item).Some? { NextEvent(l, s, item, Decode(item).value); }
    hide Repeats, ReadsCalls, CountOf;
  }

  lemma StepReadsCounts(l: Ledger, s: seq<Item>, item: Item, declared: Declared)
    requires ReadsCalls(l, s) && ReadsCounts(l, s) && ReadsBoundaries(l, s, declared) && CallsReached(l)
    ensures ReadsCounts(Step(l, item, declared), s + [item])
  {
    hide Post, TalliedNow, Number, FieldNumber, CountOf, ReadsCalls, SomeLeaves, CallsReached, Visited;
    var t := s + [item];
    assert |t| == |s| + 1;
    forall what: Tally
      ensures Number(t, |t|, what)
              == Number(s, |s|, what)
                 + if Decode(item).None? then (if what == Unreadable then 1 else 0)
                   else if TalliedNow(l, Decode(item).value, what) then 1 else 0
    {
      NumberNext(l, s, item, what);
    }
    NeverUnreadable(l);
    match Decode(item)
    case None =>
      forall n, state ensures FieldNumber(t, |t|, n, state) == FieldNumber(s, |s|, n, state) {
        FieldNumberNext(l, s, item, n, state);
      }
    case Some(e) =>
      PostFaults(l, e, declared);
      PostLeaves(l, e, declared);
      if e.boundary !in l.boundaries { NothingNumbered(s, |s|, e.boundary); }
      var next := Post(l, e, declared);
      forall n | n in next.boundaries
        ensures && next.boundaries[n].starts == Number(t, |t|, StartsAt(n))
                && next.boundaries[n].terminals == Number(t, |t|, TerminalsAt(n))
                && next.boundaries[n].omitted == FieldNumber(t, |t|, n, Omitted)
                && next.boundaries[n].unsupportedFields == FieldNumber(t, |t|, n, NotSupported)
      {
        PostCounts(l, e, declared, n);
        ElsewhereNothing(l, e, n);
        FieldNumberNext(l, s, item, n, Omitted);
        FieldNumberNext(l, s, item, n, NotSupported);
      }
  }

  lemma NeverUnreadable(l: Ledger)
    ensures forall e :: !TalliedNow(l, e, Unreadable)
  {}

  lemma ElsewhereNothing(l: Ledger, e: Entry, n: string)
    ensures n != e.boundary ==> !TalliedNow(l, e, StartsAt(n)) && !TalliedNow(l, e, TerminalsAt(n))
  {}

  // ---------- the whole stream ----------

  ghost predicate Reads(l: Ledger, s: seq<Item>, declared: Declared) {
    ReadsCalls(l, s) && ReadsBoundaries(l, s, declared) && ReadsCounts(l, s) && CallsReached(l)
  }

  lemma BeginReads(declared: Declared)
    ensures Reads(Begin(declared), [], declared)
  {}

  lemma {:induction false} RunReads(s: seq<Item>, declared: Declared)
    ensures Reads(Run(s, declared), s, declared)
  {
    hide ReadsCalls, ReadsBoundaries, ReadsCounts, Step;
    if s == [] {
      BeginReads(declared);
    } else {
      var front, last := s[..|s| - 1], s[|s| - 1];
      assert s == front + [last];
      RunReads(front, declared);
      var l := Run(front, declared);
      StepReadsCalls(l, front, last, declared);
      StepReadsBoundaries(l, front, last, declared);
      StepReadsCounts(l, front, last, declared);
      RunBalanced(s, declared);
    }
  }

  // A call begun at n and never closed.
  ghost predicate LeftOpen(s: seq<Item>, n: string) {
    exists k: nat, id :: Begins(s, k, id) && EntryAt(s, k).boundary == n && !Answered(s, |s|, k, id)
  }

  lemma OpenIsLeftOpen(l: Ledger, s: seq<Item>, n: string)
    requires ReadsCalls(l, s) && Books(l)
    ensures OpenAt(l, l.order, n) <==> LeftOpen(s, n)
  {
    hide Begins, Answered;
    if OpenAt(l, l.order, n) {
      var i :| 0 <= i < |l.order| && l.order[i] in l.calls && l.calls[l.order[i]].terminal.None?
               && l.calls[l.order[i]].boundary == n;
      var k: nat :| k < |s| && Begins(s, k, l.order[i]);
      assert Readable(s, k) by { BeginsReadable(s, k, l.order[i]); }
    }
    if LeftOpen(s, n) {
      var k: nat, id :| Begins(s, k, id) && Readable(s, k) && EntryAt(s, k).boundary == n && !Answered(s, |s|, k, id);
      assert id in l.order;
      var i :| 0 <= i < |l.order| && l.order[i] == id;
    }
  }

  lemma BeginsReadable(s: seq<Item>, k: nat, id: string)
    requires Begins(s, k, id)
    ensures Readable(s, k)
  {}

  // Everything a boundary says.
  ghost predicate SaysOfBoundary(b: Boundary, s: seq<Item>, n: string, declared: Declared, sound: bool,
                                 env: Environment)
  {
    && b.starts == Number(s, |s|, StartsAt(n)) && b.terminals == Number(s, |s|, TerminalsAt(n))
    && b.starts == b.terminals + b.missing
    && b.omitted == FieldNumber(s, |s|, n, Omitted) && b.unsupportedFields == FieldNumber(s, |s|, n, NotSupported)
    && forall c :: c in b.issues <==>
         || FromDeclaration(n, declared, c) || SomeLeaves(s, n, c)
         || (c == MissingTerminal && LeftOpen(s, n))
         || (c == GlobalInvalidCapture && !sound)
         || (c == GlobalIncompleteCapture && sound && Degraded(env))
  }

  // Every event is one that counts, or one of four kinds of fault.
  ghost predicate SaysOfFaults(t: Totals, s: seq<Item>) {
    && t.malformed == Number(s, |s|, Unreadable) && t.duplicateSequences == Number(s, |s|, RepeatedSequence)
    && t.duplicateInvocations == Number(s, |s|, RepeatedStart) && t.ambiguous == Number(s, |s|, StrayTerminal)
  }

  // Everything the issue list says, in terms of the counters.
  ghost predicate SaysOfIssues(a: Account, declared: Declared, env: Environment) {
    forall c :: c in a.issues <==>
      || FromEnvironment(c, env)
      || (c == MalformedObservation && a.totals.malformed != 0)
      || (c == DuplicateSequence && a.totals.duplicateSequences != 0)
      || (c == DuplicateInvocation && a.totals.duplicateInvocations != 0)
      || (c == AmbiguousInvocation && a.totals.ambiguous != 0)
      || (c == MissingTerminal && a.totals.missing != 0)
      || (c == RequiredFieldOmitted && a.totals.omitted != 0)
      || (c == RequiredFieldUnsupported && a.totals.unsupportedFields != 0)
      || (c == UnsupportedBoundary && declared.unsupported != {})
      || (c == UndeclaredBoundary && exists n :: n in a.boundaries && !IsDeclared(n, declared))
  }

  lemma SettledSays(l: Ledger, s: seq<Item>, declared: Declared, n: string)
    requires Reads(l, s, declared) && Books(l) && Balanced(l) && n in l.boundaries
    ensures var q := Settle(l, l.order);
            && n in q.boundaries
            && var b := q.boundaries[n];
               && b.starts == Number(s, |s|, StartsAt(n)) && b.terminals == Number(s, |s|, TerminalsAt(n))
               && b.starts == b.terminals + b.missing
               && b.omitted == FieldNumber(s, |s|, n, Omitted)
               && b.unsupportedFields == FieldNumber(s, |s|, n, NotSupported)
               && forall c :: c in b.issues <==>
                    || FromDeclaration(n, declared, c) || SomeLeaves(s, n, c)
                    || (c == MissingTerminal && LeftOpen(s, n))
  {
    hide Settle, OpenAt, LeftOpen, SomeLeaves, Number, FieldNumber, Balanced, OpenCount, ReadsCalls, Visited;
    SettleDetail(l, l.order);
    SettleBooks(l, l.order);
    OpenIsLeftOpen(l, s, n);
  }

  lemma SealSays(b: Boundary, invalid: bool, incomplete: bool)
    ensures var q := Seal(b, invalid, incomplete);
            && q.starts == b.starts && q.terminals == b.terminals && q.missing == b.missing
            && q.omitted == b.omitted && q.unsupportedFields == b.unsupportedFields
            && forall c :: c in q.issues <==>
                 || c in b.issues || (c == GlobalInvalidCapture && invalid)
                 || (c == GlobalIncompleteCapture && !invalid && incomplete)
  {
    AddNewMembers(b.issues, GlobalInvalidCapture);
    AddNewMembers(b.issues, GlobalIncompleteCapture);
  }

  lemma ConcludeSays(q: Ledger, declared: Declared, env: Environment)
    requires IssuesMatch(q)
    ensures var a := Conclude(q, declared, env);
            && a.totals == q.totals && SaysOfIssues(a, declared, env)
            && a.boundaries == map n | n in q.boundaries :: Seal(q.boundaries[n], !Clean(q), Degraded(env))
  {
    hide SomeInvalid, SomeIncomplete, Seal, Degraded, FromEnvironment, EnvironmentIssues, LedgerIssues, Overall;
    ConcludedIssues(q, declared, env);
    EnvironmentIssueSet(q.issues, env);
    LedgerIssuesAre(EnvironmentIssues(q.issues, env), q, declared);
    UndeclaredSomewhere(q.boundaries.Keys, declared);
    IssuesAre(q);
  }

  lemma UndeclaredSomewhere(names: set<string>, declared: Declared)
    ensures names - declared.supported - declared.unsupported != {} <==>
            exists n :: n in names && !IsDeclared(n, declared)
  {
    if n :| n in names && !IsDeclared(n, declared) {
      assert n in names - declared.supported - declared.unsupported;
    }
    if names - declared.supported - declared.unsupported != {} {
      var n :| n in names - declared.supported - declared.unsupported;
    }
  }

  lemma IssuesAre(l: Ledger)
    requires IssuesMatch(l)
    ensures forall c :: c in l.issues <==>
              || (c == MalformedObservation && l.totals.malformed != 0)
              || (c == DuplicateSequence && l.totals.duplicateSequences != 0)
              || (c == DuplicateInvocation && l.totals.duplicateInvocations != 0)
              || (c == AmbiguousInvocation && l.totals.ambiguous != 0)
  {}

  // THE ACCOUNT OF ANY STREAM: its boundaries are those declared and those visited; every counter is the number of
  // the events it stands for; every issue is left by an event that earns it, by the declaration, by a call that stays
  // open or by the capture as a whole.
  lemma AnyStream(s: seq<Item>, supported: seq<Option<string>>, unsupported: seq<Option<string>>, env: Environment)
    requires Accepts(supported, unsupported, env)
    ensures var a := AccountFor(s, supported, unsupported, env);
            var declared := Declared(Names(supported), Names(unsupported));
            && SaysOfFaults(a.totals, s) && SaysOfIssues(a, declared, env)
            && (forall n :: n in a.boundaries <==> IsDeclared(n, declared) || Visited(s, n))
            && (forall n :: n in a.boundaries ==>
                  SaysOfBoundary(a.boundaries[n], s, n, declared, Faults(a.totals) == 0, env))
  {
    hide Run, Settle, Conclude, ReadsCalls, Books, Balanced, IssuesMatch, Names, Number, FieldNumber, Visited,
      SomeLeaves, LeftOpen, Seal, Degraded, SaysOfIssues, ValidEnvironment, ValidDeclaration, FromDeclaration;
    var declared := Declared(Names(supported), Names(unsupported));
    var l := Run(s, declared);
    RunReads(s, declared);
    RunBalanced(s, declared);
    RunIssues(s, declared);
    SettleBooks(l, l.order);
    SettleTotals(l, l.order);
    var q := Settle(l, l.order);
    SettledIsDirty(l, q);
    ConcludeSays(q, declared, env);
    forall n | n in l.boundaries
      ensures SaysOfBoundary(Seal(q.boundaries[n], !Clean(q), Degraded(env)), s, n, declared, Clean(q), env)
    {
      SettledSays(l, s, declared, n);
      SealSays(q.boundaries[n], !Clean(q), Degraded(env));
    }
  }
}
