// Conservation of events and fail-closed behaviour of the accounting.

module AccountingLaws {
  import opened Wrappers
  import opened Sequences
  import opened Vocabulary
  import opened Accounting
  import opened AccountingSpec

  // ---------- sums over the boundaries ----------

  datatype Column = Starts | Terminals | Missing | OmittedFields | UnsupportedFields

  function Cell(b: Boundary, c: Column): nat {
    match c
    case Starts => b.starts
    case Terminals => b.terminals
    case Missing => b.missing
    case OmittedFields => b.omitted
    case UnsupportedFields => b.unsupportedFields
  }

  function Total(t: Totals, c: Column): nat {
    match c
    case Starts => t.starts
    case Terminals => t.terminals
    case Missing => t.missing
    case OmittedFields => t.omitted
    case UnsupportedFields => t.unsupportedFields
  }

  ghost function Sum(bs: map<string, Boundary>, c: Column): nat {
    if bs == map[] then 0
    else
      var n :| n in bs;
      Cell(bs[n], c) + Sum(bs - {n}, c)
  }

  lemma {:induction false} SumWithout(bs: map<string, Boundary>, n: string, c: Column)
    requires n in bs
    ensures Sum(bs, c) == Cell(bs[n], c) + Sum(bs - {n}, c)
    decreases |bs|
  {
    var m :| m in bs && Sum(bs, c) == Cell(bs[m], c) + Sum(bs - {m}, c);
    if m != n {
      assert (bs - {m}) - {n} == (bs - {n}) - {m};
      SumWithout(bs - {m}, n, c);
      SumWithout(bs - {n}, m, c);
    }
  }

  lemma SumUpdate(bs: map<string, Boundary>, n: string, b: Boundary, c: Column)
    ensures Sum(bs[n := b], c) == Sum(bs, c) - (if n in bs then Cell(bs[n], c) else 0) + Cell(b, c)
  {
    SumWithout(bs[n := b], n, c);
    assert bs[n := b] - {n} == bs - {n};
    if n in bs { SumWithout(bs, n, c); } else { assert bs - {n} == bs; }
  }

  lemma {:induction false} SumZero(bs: map<string, Boundary>, c: Column)
    requires forall n :: n in bs ==> Cell(bs[n], c) == 0
    ensures Sum(bs, c) == 0
    decreases |bs|
  {
    if bs != map[] {
      var n :| n in bs;
      SumWithout(bs, n, c);
      SumZero(bs - {n}, c);
    }
  }

  lemma {:induction false} SumSplits(bs: map<string, Boundary>)
    requires forall n :: n in bs ==> bs[n].starts == bs[n].terminals + bs[n].missing
    ensures Sum(bs, Starts) == Sum(bs, Terminals) + Sum(bs, Missing)
    decreases |bs|
  {
    if bs != map[] {
      var n :| n in bs;
      SumWithout(bs, n, Starts);
      SumWithout(bs, n, Terminals);
      SumWithout(bs, n, Missing);
      SumSplits(bs - {n});
    }
  }

  ghost predicate Balanced(l: Ledger) {
    forall c: Column :: Sum(l.boundaries, c) == Total(l.totals, c)
  }

  // ---------- open calls ----------

  function OpenCount(ids: seq<string>, calls: map<string, Call>, n: string): nat {
    if ids == [] then 0
    else
      var last := ids[|ids| - 1];
      OpenCount(ids[..|ids| - 1], calls, n)
      + if last in calls && calls[last].boundary == n && calls[last].terminal.None? then 1 else 0
  }

  lemma {:induction false} OpenCountFrame(ids: seq<string>, calls: map<string, Call>, id: string, call: Call, n: string)
    requires id !in ids
    ensures OpenCount(ids, calls[id := call], n) == OpenCount(ids, calls, n)
  {
    if ids != [] {
      assert ids[|ids| - 1] in ids && id !in ids[..|ids| - 1];
      OpenCountFrame(ids[..|ids| - 1], calls, id, call, n);
    }
  }

  lemma OpenCountOpen(ids: seq<string>, calls: map<string, Call>, id: string, call: Call, n: string)
    requires id !in ids && call.terminal.None?
    ensures OpenCount(ids + [id], calls[id := call], n)
            == OpenCount(ids, calls, n) + if n == call.boundary then 1 else 0
  {
    OpenCountFrame(ids, calls, id, call, n);
    assert (ids + [id])[..|ids|] == ids;
  }

  lemma {:induction false} OpenCountClose(ids: seq<string>, calls: map<string, Call>, id: string, t: nat, n: string)
    requires NoDuplicates(ids) && id in ids && id in calls && calls[id].terminal.None?
    ensures OpenCount(ids, calls[id := calls[id].(terminal := Some(t))], n)
            == OpenCount(ids, calls, n) - if calls[id].boundary == n then 1 else 0
  {
    var front, last := ids[..|ids| - 1], ids[|ids| - 1];
    if last == id {
      OpenCountFrame(front, calls, id, calls[id].(terminal := Some(t)), n);
    } else {
      OpenCountClose(front, calls, id, t, n);
    }
  }

  // What every run keeps: a boundary's starts not yet matched by terminals are its open calls.
  ghost predicate Books(l: Ledger) {
    && NoDuplicates(l.order)
    && (forall id :: id in l.calls <==> id in l.order)
    && (forall id :: id in l.calls ==> l.calls[id].boundary in l.boundaries)
    && (forall n :: n in l.boundaries ==>
          && l.boundaries[n].missing == 0
          && l.boundaries[n].starts == l.boundaries[n].terminals + OpenCount(l.order, l.calls, n))
    && (forall n :: n !in l.boundaries ==> OpenCount(l.order, l.calls, n) == 0)
  }

  // Marking a boundary or charging its fields moves no start and no terminal.
  ghost predicate SameCalls(b: Boundary, old_: Boundary) {
    b.starts == old_.starts && b.terminals == old_.terminals && b.missing == old_.missing
  }

  function At(bs: map<string, Boundary>, n: string): Boundary {
    if n in bs then bs[n] else NEW_BOUNDARY
  }

  ghost predicate SameLedger(next: Ledger, l: Ledger) {
    && next.calls == l.calls && next.order == l.order
    && next.boundaries.Keys >= l.boundaries.Keys
    && (forall n :: n in next.boundaries ==> SameCalls(next.boundaries[n], At(l.boundaries, n)))
  }

  lemma BooksFrame(l: Ledger, next: Ledger)
    requires Books(l) && SameLedger(next, l)
    ensures Books(next)
  {}

  // The ledger after the event's boundary is found and its fields are charged.
  function Noted(l: Ledger, e: Entry, declared: Declared): Ledger {
    l.(boundaries := l.boundaries[e.boundary := Charge(Reach(l.boundaries, e.boundary, declared), e.states)],
       seen := l.seen + {e.sequence},
       totals := l.totals.(
         omitted := l.totals.omitted + CountOf(e.states, Omitted),
         unsupportedFields := l.totals.unsupportedFields + CountOf(e.states, NotSupported)))
  }

  lemma NotedBooks(l: Ledger, e: Entry, declared: Declared)
    requires Books(l)
    ensures Books(Noted(l, e, declared))
  {
    ChargeStatus(Reach(l.boundaries, e.boundary, declared), e.states);
    BooksFrame(l, Noted(l, e, declared));
  }

  lemma StartBooks(l: Ledger, e: Entry)
    requires Books(l) && e.boundary in l.boundaries
    ensures Books(PostStart(l, e, l.boundaries[e.boundary]))
  {
    hide OpenCount, AddNew;
    var next := PostStart(l, e, l.boundaries[e.boundary]);
    if e.id in l.calls {
      BooksFrame(l, next);
    } else {
      forall n ensures OpenCount(next.order, next.calls, n)
                       == OpenCount(l.order, l.calls, n) + if n == e.boundary then 1 else 0 {
        OpenCountOpen(l.order, l.calls, e.id, Call(e.boundary, e.sequence, None), n);
      }
    }
  }

  lemma TerminalBooks(l: Ledger, e: Entry)
    requires Books(l) && e.boundary in l.boundaries
    ensures Books(PostTerminal(l, e, l.boundaries[e.boundary]))
  {
    var next := PostTerminal(l, e, l.boundaries[e.boundary]);
    if next.calls == l.calls {
      BooksFrame(l, next);
    } else {
      forall n { OpenCountClose(l.order, l.calls, e.id, e.sequence, n); }
    }
  }

  lemma PostBooks(l: Ledger, e: Entry, declared: Declared)
    requires Books(l)
    ensures Books(Post(l, e, declared))
  {
    if e.sequence in l.seen {
      BooksFrame(l, Post(l, e, declared));
    } else {
      NotedBooks(l, e, declared);
      if e.kind.Start? { StartBooks(Noted(l, e, declared), e); } else { TerminalBooks(Noted(l, e, declared), e); }
    }
  }

  // A ledger stays balanced when one boundary and the totals move together.
  lemma BalanceMove(l: Ledger, next: Ledger, n: string)
    requires Balanced(l) && n in next.boundaries
    requires next.boundaries == l.boundaries[n := next.boundaries[n]]
    requires forall c: Column :: Total(next.totals, c) + Cell(At(l.boundaries, n), c)
                                 == Total(l.totals, c) + Cell(next.boundaries[n], c)
    ensures Balanced(next)
  {
    forall c: Column ensures Sum(next.boundaries, c) == Total(next.totals, c) {
      SumUpdate(l.boundaries, n, next.boundaries[n], c);
      assert Total(next.totals, c) + Cell(At(l.boundaries, n), c) == Total(l.totals, c) + Cell(next.boundaries[n], c);
    }
  }

  lemma NotedBalance(l: Ledger, e: Entry, declared: Declared)
    requires Balanced(l)
    ensures Balanced(Noted(l, e, declared))
  {
    ChargeStatus(Reach(l.boundaries, e.boundary, declared), e.states);
    BalanceMove(l, Noted(l, e, declared), e.boundary);
  }

  lemma TerminalBalance(l: Ledger, e: Entry)
    requires Balanced(l) && Books(l) && e.boundary in l.boundaries
    ensures Balanced(PostTerminal(l, e, l.boundaries[e.boundary]))
  {
    var b := l.boundaries[e.boundary];
    var next := PostTerminal(l, e, b);
    if e.id in l.calls && next.calls == l.calls {
      var marked := l.(boundaries := l.boundaries[e.boundary := Mark(b, Invalid, AmbiguousTerminal)]);
      BalanceMove(l, marked, e.boundary);
      BalanceMove(marked, next, l.calls[e.id].boundary);
    } else {
      BalanceMove(l, next, e.boundary);
    }
  }

  lemma StartBalance(l: Ledger, e: Entry)
    requires Balanced(l) && e.boundary in l.boundaries
    ensures Balanced(PostStart(l, e, l.boundaries[e.boundary]))
  {
    hide Balanced;
    BalanceMove(l, PostStart(l, e, l.boundaries[e.boundary]), e.boundary);
  }

  lemma DuplicateBalance(l: Ledger, e: Entry, declared: Declared)
    requires Balanced(l) && e.sequence in l.seen
    ensures Balanced(Post(l, e, declared))
  {
    hide Balanced, PostNew;
    BalanceMove(l, Post(l, e, declared), e.boundary);
  }

  lemma PostBalance(l: Ledger, e: Entry, declared: Declared)
    requires Balanced(l) && Books(l)
    ensures Balanced(Post(l, e, declared))
  {
    hide Balanced, Books, Charge, CountOf, PostStart, PostTerminal, Reach;
    if e.sequence in l.seen {
      DuplicateBalance(l, e, declared);
    } else {
      var noted := Noted(l, e, declared);
      NotedBalance(l, e, declared);
      NotedBooks(l, e, declared);
      if e.kind.Start? { StartBalance(noted, e); } else { TerminalBalance(noted, e); }
    }
  }

  lemma BeginBalanced(declared: Declared)
    ensures Books(Begin(declared)) && Balanced(Begin(declared))
  {
    forall c: Column { SumZero(Opening(declared), c); }
  }

  lemma {:induction false} RunBalanced(stream: seq<Item>, declared: Declared)
    ensures Books(Run(stream, declared)) && Balanced(Run(stream, declared))
  {
    if stream == [] {
      BeginBalanced(declared);
    } else {
      var front, last := stream[..|stream| - 1], stream[|stream| - 1];
      RunBalanced(front, declared);
      if Decode(last).Some? {
        PostBooks(Run(front, declared), Decode(last).value, declared);
        PostBalance(Run(front, declared), Decode(last).value, declared);
      }
    }
  }

  // Settling moves exactly the open calls into the missing terminals.
  lemma {:induction false} SettleBooks(l: Ledger, ids: seq<string>)
    requires Books(l) && Balanced(l)
    ensures var s := Settle(l, ids);
            && s.calls == l.calls && s.boundaries.Keys == l.boundaries.Keys && Balanced(s)
            && s.totals == l.totals.(missing := s.totals.missing)
            && (forall n :: n in l.boundaries ==>
                  && s.boundaries[n].starts == l.boundaries[n].starts
                  && s.boundaries[n].terminals == l.boundaries[n].terminals
                  && s.boundaries[n].missing == OpenCount(ids, l.calls, n))
  {
    if ids != [] {
      var front, id := ids[..|ids| - 1], ids[|ids| - 1];
      SettleBooks(l, front);
      var s := Settle(l, front);
      if id in l.calls && l.calls[id].terminal.None? {
        BalanceMove(s, Settle(l, ids), l.calls[id].boundary);
      }
    }
  }

  predicate Accepts(supported: seq<Option<string>>, unsupported: seq<Option<string>>, env: Environment) {
    ValidEnvironment(env) && ValidDeclaration(supported, unsupported)
  }

  function Faults(t: Totals): nat {
    t.malformed + t.duplicateSequences + t.duplicateInvocations + t.ambiguous
  }

  lemma StepCountsOne(l: Ledger, item: Item, declared: Declared)
    ensures var t, u := l.totals, Step(l, item, declared).totals;
            u.starts + u.terminals + Faults(u) == t.starts + t.terminals + Faults(t) + 1
  {}

  lemma {:induction false} EveryEventCounted(stream: seq<Item>, declared: Declared)
    ensures var t := Run(stream, declared).totals; |stream| == t.starts + t.terminals + Faults(t)
  {
    if stream != [] {
      EveryEventCounted(stream[..|stream| - 1], declared);
      StepCountsOne(Run(stream[..|stream| - 1], declared), stream[|stream| - 1], declared);
    }
  }

  // CONSERVATION: every event of an accepted stream is counted once, every start is a terminal or a missing
  // one, globally and at every boundary, and the boundaries add up to the totals.
  lemma EventsAreConserved(stream: seq<Item>, supported: seq<Option<string>>,
                           unsupported: seq<Option<string>>, env: Environment)
    requires Accepts(supported, unsupported, env)
    ensures var a := AccountFor(stream, supported, unsupported, env);
            && |stream| == a.totals.starts + a.totals.terminals + Faults(a.totals)
            && a.totals.starts == a.totals.terminals + a.totals.missing
            && (forall n :: n in a.boundaries ==>
                  a.boundaries[n].starts == a.boundaries[n].terminals + a.boundaries[n].missing)
            && (forall c: Column :: Sum(a.boundaries, c) == Total(a.totals, c))
  {
    var declared := Declared(Names(supported), Names(unsupported));
    var l := Run(stream, declared);
    var s := Settle(l, l.order);
    var a := AccountFor(stream, supported, unsupported, env);
    EveryEventCounted(stream, declared);
    RunBalanced(stream, declared);
    SettleBooks(l, l.order);
    SealKeepsCells(s, declared, env);
    assert a == Conclude(s, declared, env);
    forall c: Column ensures Sum(a.boundaries, c) == Total(a.totals, c) {
      SumAgrees(s.boundaries, a.boundaries, c);
    }
    SumSplits(a.boundaries);
    assert Total(a.totals, Starts) == Total(a.totals, Terminals) + Total(a.totals, Missing);
  }

  lemma SealKeepsCells(s: Ledger, declared: Declared, env: Environment)
    ensures var a := Conclude(s, declared, env);
            && a.totals == s.totals && a.boundaries.Keys == s.boundaries.Keys
            && forall n, c: Column :: n in s.boundaries ==> Cell(a.boundaries[n], c) == Cell(s.boundaries[n], c)
  {}

  lemma {:induction false} SumAgrees(bs: map<string, Boundary>, cs: map<string, Boundary>, c: Column)
    requires bs.Keys == cs.Keys && forall n :: n in bs ==> Cell(bs[n], c) == Cell(cs[n], c)
    ensures Sum(bs, c) == Sum(cs, c)
    decreases |bs|
  {
    if bs != map[] {
      var n :| n in bs;
      SumWithout(bs, n, c);
      SumWithout(cs, n, c);
      SumAgrees(bs - {n}, cs - {n}, c);
    }
  }

  // ---------- fail closed ----------

  lemma {:induction false} DirtStays(stream: seq<Item>, more: seq<Item>, declared: Declared)
    requires !Clean(Run(stream, declared))
    ensures !Clean(Run(stream + more, declared))
  {
    if more == [] {
      assert stream + more == stream;
    } else {
      var front, last := more[..|more| - 1], more[|more| - 1];
      DirtStays(stream, front, declared);
      assert (stream + more)[..|stream + more| - 1] == stream + front;
      StepKeepsDirt(Run(stream + front, declared), last, declared);
    }
  }

  // Once a prefix of the stream is invalid, no later event repairs it, at any boundary.
  lemma InvalidIsForever(stream: seq<Item>, more: seq<Item>, supported: seq<Option<string>>,
                         unsupported: seq<Option<string>>, env: Environment)
    requires Accepts(supported, unsupported, env)
    requires AccountFor(stream, supported, unsupported, env).status == Invalid
    ensures var a := AccountFor(stream + more, supported, unsupported, env);
            a.status == Invalid && forall n :: n in a.boundaries ==> a.boundaries[n].status == Invalid
  {
    var declared := Declared(Names(supported), Names(unsupported));
    NamesDisjoint(supported, unsupported);
    AccountMeetsSpec(stream, supported, unsupported, env);
    RunMatches(stream, declared);
    DirtStays(stream, more, declared);
    DirtyAccount(stream + more, declared, env);
  }

  predicate Stopped(env: Environment) {
    env.process == Some(TimedOut) || env.process == Some(Interrupted)
  }

  // Un-closing, raising a counter, or moving from a finished process to a stopped one.
  predicate NoBetter(worse: Environment, env: Environment) {
    && (worse.closed ==> env.closed)
    && worse.observerFailures >= env.observerFailures && worse.callbackFailures >= env.callbackFailures
    && worse.losses >= env.losses
    && (Stopped(env) ==> Stopped(worse))
  }

  // A worse environment never improves the overall status or the status of any boundary.
  lemma NoBetterStatus(stream: seq<Item>, supported: seq<Option<string>>, unsupported: seq<Option<string>>,
                       env: Environment, worse: Environment)
    requires Accepts(supported, unsupported, env) && ValidEnvironment(worse) && NoBetter(worse, env)
    ensures var a, w := AccountFor(stream, supported, unsupported, env),
                        AccountFor(stream, supported, unsupported, worse);
            && Priority(w.status) >= Priority(a.status)
            && w.boundaries.Keys == a.boundaries.Keys
            && (forall n :: n in a.boundaries ==>
                  Priority(w.boundaries[n].status) >= Priority(a.boundaries[n].status))
  {
    AccountMeetsSpec(stream, supported, unsupported, env);
    AccountMeetsSpec(stream, supported, unsupported, worse);
    assert Degraded(env) ==> Degraded(worse);
  }
}
