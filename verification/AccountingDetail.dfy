// What an account says of every boundary and of the capture as a whole, counters and issue codes included.

module AccountingDetail {
  import opened Wrappers
  import opened Sequences
  import opened Vocabulary
  import opened Accounting
  import opened AccountingSpec
  import opened AccountingLaws

  // ---------- the counters and codes an orderly stream earns a boundary ----------

  function CountAt(es: seq<Entry>, n: string, kind: Kind): nat {
    if es == [] then 0
    else
      var last := es[|es| - 1];
      CountAt(es[..|es| - 1], n, kind) + if last.boundary == n && last.kind == kind then 1 else 0
  }

  function FieldsAt(es: seq<Entry>, n: string, s: FieldState): nat {
    if es == [] then 0
    else
      var last := es[|es| - 1];
      FieldsAt(es[..|es| - 1], n, s) + if last.boundary == n then CountOf(last.states, s) else 0
  }

  // The codes before the open calls are settled.
  predicate NotedAt(es: seq<Entry>, n: string, declared: Declared, c: Code) {
    || (c == UnsupportedBoundary && n in declared.unsupported)
    || (c == UndeclaredBoundary && n !in declared.supported && n !in declared.unsupported)
    || (c == RequiredFieldOmitted && FieldAt(es, n, Omitted))
    || (c == RequiredFieldUnsupported && FieldAt(es, n, NotSupported))
  }

  ghost predicate Detailed(l: Ledger, es: seq<Entry>, declared: Declared) {
    forall n :: n in l.boundaries ==> Earned(l.boundaries[n], es, n, declared)
  }

  ghost predicate Earned(b: Boundary, es: seq<Entry>, n: string, declared: Declared) {
    && b.starts == CountAt(es, n, Start) && b.terminals == CountAt(es, n, Terminal)
    && b.omitted == FieldsAt(es, n, Omitted) && b.unsupportedFields == FieldsAt(es, n, NotSupported)
    && forall c :: c in b.issues <==> NotedAt(es, n, declared, c)
  }

  lemma {:induction false} ChargeIssues(b: Boundary, states: seq<FieldState>)
    ensures forall c :: c in Charge(b, states).issues <==>
              || c in b.issues
              || (c == RequiredFieldOmitted && Omitted in states)
              || (c == RequiredFieldUnsupported && NotSupported in states)
  {
    if states != [] {
      var front, last := states[..|states| - 1], states[|states| - 1];
      assert states == front + [last];
      ChargeIssues(b, front);
      AddNewMembers(Charge(b, front).issues, RequiredFieldOmitted);
      AddNewMembers(Charge(b, front).issues, RequiredFieldUnsupported);
    }
  }

  lemma CountSnoc(es: seq<Entry>, e: Entry, n: string)
    ensures forall kind :: CountAt(es + [e], n, kind)
                           == CountAt(es, n, kind) + if e.boundary == n && e.kind == kind then 1 else 0
    ensures forall s :: FieldsAt(es + [e], n, s)
                        == FieldsAt(es, n, s) + if e.boundary == n then CountOf(e.states, s) else 0
  {
    assert (es + [e])[..|es|] == es;
  }

  // A boundary nothing was posted to.
  lemma {:induction false} NothingAt(es: seq<Entry>, n: string)
    requires forall i :: 0 <= i < |es| ==> es[i].boundary != n
    ensures forall kind :: CountAt(es, n, kind) == 0
    ensures forall s :: FieldsAt(es, n, s) == 0 && !FieldAt(es, n, s)
  {
    if es != [] { NothingAt(es[..|es| - 1], n); }
  }

  lemma ReachEarned(l: Ledger, es: seq<Entry>, n: string, declared: Declared)
    requires Detailed(l, es, declared) && BoundariesMatch(l, es, declared)
    ensures Earned(Reach(l.boundaries, n, declared), es, n, declared)
  {
    hide CountAt, FieldsAt, FieldAt;
    if n !in l.boundaries {
      assert !Reached(es, n, declared);
      NothingAt(es, n);
    } else {
      assert Earned(l.boundaries[n], es, n, declared);
    }
    AddNewMembers((if n in l.boundaries then l.boundaries[n] else NEW_BOUNDARY).issues, UndeclaredBoundary);
  }

  // A fitting event is new to the ledger, or closes a call that is open there.
  lemma FitsLedger(l: Ledger, es: seq<Entry>, e: Entry, declared: Declared)
    requires Matches(l, es, declared) && Fits(es, e)
    ensures e.sequence !in l.seen
    ensures e.kind.Start? ==> e.id !in l.calls
    ensures e.kind.Terminal? ==>
              && e.id in l.calls && l.calls[e.id].boundary == e.boundary && l.calls[e.id].terminal.None?
              && l.calls[e.id].start < e.sequence
  {
    hide BoundariesMatch;
  }

  // It moves one counter of one boundary.
  lemma PostDetail(l: Ledger, es: seq<Entry>, e: Entry, declared: Declared)
    requires Matches(l, es, declared) && Fits(es, e)
    ensures var next := Post(l, e, declared);
            var b := Charge(Reach(l.boundaries, e.boundary, declared), e.states);
            next.boundaries == l.boundaries[e.boundary :=
              if e.kind.Start? then b.(starts := b.starts + 1) else b.(terminals := b.terminals + 1)]
  {
    hide Matches, Fits, Charge, Reach, CountOf, Mark;
    FitsLedger(l, es, e, declared);
  }

  lemma PostDetailed(l: Ledger, es: seq<Entry>, e: Entry, declared: Declared)
    requires Clean(l) && Matches(l, es, declared) && Fits(es, e) && Detailed(l, es, declared)
    ensures Detailed(Post(l, e, declared), es + [e], declared)
  {
    hide CountAt, FieldsAt, FieldAt, Charge, Reach, Post, Clean, Matches, Fits, CountOf;
    var next, here := Post(l, e, declared), Reach(l.boundaries, e.boundary, declared);
    PostDetail(l, es, e, declared);
    PostMatchesBoundaries(l, es, declared);
    ReachEarned(l, es, e.boundary, declared);
    ChargeStatus(here, e.states);
    ChargeIssues(here, e.states);
    SnocFacts(es, e);
    forall n | n in next.boundaries ensures Earned(next.boundaries[n], es + [e], n, declared) {
      CountSnoc(es, e, n);
    }
  }

  lemma PostMatchesBoundaries(l: Ledger, es: seq<Entry>, declared: Declared)
    requires Matches(l, es, declared)
    ensures BoundariesMatch(l, es, declared)
  {}

  lemma BeginDetailed(declared: Declared)
    requires declared.supported !! declared.unsupported
    ensures Detailed(Begin(declared), [], declared)
  {}

  lemma {:induction false} RunDetailed(stream: seq<Item>, declared: Declared)
    requires declared.supported !! declared.unsupported && Clean(Run(stream, declared))
    ensures WellFormed(stream) && Detailed(Run(stream, declared), Entries(stream), declared)
  {
    hide Detailed, Matches, Clean, Orderly, Fits;
    RunMatches(stream, declared);
    if stream == [] {
      BeginDetailed(declared);
      assert Entries(stream) == [];
    } else {
      var front, last := stream[..|stream| - 1], stream[|stream| - 1];
      StepKeepsDirt(Run(front, declared), last, declared);
      EntriesSnoc(stream);
      RunDetailed(front, declared);
      RunMatches(front, declared);
      var es, e := Entries(front), Decode(last).value;
      PostClean(Run(front, declared), es, e, declared);
      PostDetailed(Run(front, declared), es, e, declared);
    }
  }

  // ---------- settled and sealed ----------

  lemma SettleOneDetail(l: Ledger, id: string)
    requires id in l.calls ==> l.calls[id].boundary in l.boundaries
    ensures var s := SettleOne(l, id);
            forall n :: n in l.boundaries ==>
              && n in s.boundaries && s.boundaries[n].starts == l.boundaries[n].starts
              && s.boundaries[n].terminals == l.boundaries[n].terminals
              && s.boundaries[n].omitted == l.boundaries[n].omitted
              && s.boundaries[n].unsupportedFields == l.boundaries[n].unsupportedFields
              && forall c :: c in s.boundaries[n].issues <==>
                   || c in l.boundaries[n].issues
                   || (c == MissingTerminal && id in l.calls && l.calls[id].terminal.None? && l.calls[id].boundary == n)
  {
    if id in l.calls { AddNewMembers(l.boundaries[l.calls[id].boundary].issues, MissingTerminal); }
  }

  lemma {:induction false} SettleDetail(l: Ledger, ids: seq<string>)
    requires forall id :: id in l.calls ==> l.calls[id].boundary in l.boundaries
    ensures var s := Settle(l, ids);
            forall n :: n in l.boundaries ==>
              && n in s.boundaries && s.boundaries[n].starts == l.boundaries[n].starts
              && s.boundaries[n].terminals == l.boundaries[n].terminals
              && s.boundaries[n].omitted == l.boundaries[n].omitted
              && s.boundaries[n].unsupportedFields == l.boundaries[n].unsupportedFields
              && forall c :: c in s.boundaries[n].issues <==>
                   c in l.boundaries[n].issues || (c == MissingTerminal && OpenAt(l, ids, n))
  {
    hide SettleOne, OpenAt;
    if ids == [] {
      forall n { NothingOpen(l, n); }
    } else {
      var front, last := ids[..|ids| - 1], ids[|ids| - 1];
      SettleDetail(l, front);
      SettleEffect(l, front);
      SettleOneDetail(Settle(l, front), last);
      forall n { OpenAtSnoc(l, ids, n); }
    }
  }

  // Everything a boundary of an orderly account says.
  ghost predicate TellsBoundary(b: Boundary, es: seq<Entry>, n: string, declared: Declared, env: Environment) {
    && b.starts == CountAt(es, n, Start) && b.terminals == CountAt(es, n, Terminal)
    && b.starts == b.terminals + b.missing
    && b.omitted == FieldsAt(es, n, Omitted) && b.unsupportedFields == FieldsAt(es, n, NotSupported)
    && forall c :: c in b.issues <==>
         || NotedAt(es, n, declared, c)
         || (c == MissingTerminal && UnclosedAt(es, n))
         || (c == GlobalIncompleteCapture && Degraded(env))
  }

  // What is known of a ledger that has taken an orderly stream.
  ghost predicate Mirrors(l: Ledger, es: seq<Entry>, declared: Declared) {
    Clean(l) && IssuesMatch(l) && Matches(l, es, declared) && Detailed(l, es, declared) && Books(l) && Balanced(l)
  }

  lemma OrderlyMirrors(stream: seq<Item>, declared: Declared)
    requires declared.supported !! declared.unsupported && WellFormed(stream) && Orderly(Entries(stream))
    ensures Mirrors(Run(stream, declared), Entries(stream), declared)
  {
    hide Run, Entries, WellFormed, Orderly, Clean, IssuesMatch, Matches, Detailed, Books, Balanced;
    RunMatches(stream, declared);
    RunIssues(stream, declared);
    RunDetailed(stream, declared);
    RunBalanced(stream, declared);
  }

  lemma SettledTells(l: Ledger, es: seq<Entry>, declared: Declared, n: string)
    requires Mirrors(l, es, declared) && n in l.boundaries
    ensures var s := Settle(l, l.order);
            && n in s.boundaries
            && var b := s.boundaries[n];
               && b.starts == CountAt(es, n, Start) && b.terminals == CountAt(es, n, Terminal)
               && b.starts == b.terminals + b.missing && b.missing == OpenCount(l.order, l.calls, n)
               && b.omitted == FieldsAt(es, n, Omitted) && b.unsupportedFields == FieldsAt(es, n, NotSupported)
               && forall c :: c in b.issues <==>
                    NotedAt(es, n, declared, c) || (c == MissingTerminal && UnclosedAt(es, n))
  {
    hide Settle, SeenMatch, Running, OpenAt, NotedAt, UnclosedAt, CountAt, FieldsAt, Balanced, OpenCount, Started,
      Closed;
    CallsAreReached(l, es, declared);
    SettleDetail(l, l.order);
    SettleBooks(l, l.order);
    OpenIsUnclosed(l, es, n);
    assert Earned(l.boundaries[n], es, n, declared);
  }

  lemma SealTells(b: Boundary, es: seq<Entry>, n: string, declared: Declared, env: Environment)
    requires b.starts == CountAt(es, n, Start) && b.terminals == CountAt(es, n, Terminal)
    requires b.starts == b.terminals + b.missing
    requires b.omitted == FieldsAt(es, n, Omitted) && b.unsupportedFields == FieldsAt(es, n, NotSupported)
    requires forall c :: c in b.issues <==>
               NotedAt(es, n, declared, c) || (c == MissingTerminal && UnclosedAt(es, n))
    ensures TellsBoundary(Seal(b, false, Degraded(env)), es, n, declared, env)
  {
    hide UnclosedAt, CountAt, FieldsAt, FieldAt, Degraded;
    AddNewMembers(b.issues, GlobalIncompleteCapture);
  }

  // AN ORDERLY ACCOUNT counts the events and fields of every boundary and names exactly what is wrong with it.
  lemma OrderlyBoundaries(stream: seq<Item>, supported: seq<Option<string>>, unsupported: seq<Option<string>>,
                          env: Environment)
    requires ValidEnvironment(env) && ValidDeclaration(supported, unsupported)
    requires WellFormed(stream) && Orderly(Entries(stream))
    ensures var a := AccountFor(stream, supported, unsupported, env);
            var declared := Declared(Names(supported), Names(unsupported));
            && (forall n :: n in a.boundaries <==> Reached(Entries(stream), n, declared))
            && forall n :: n in a.boundaries ==> TellsBoundary(a.boundaries[n], Entries(stream), n, declared, env)
  {
    hide Run, Settle, Orderly, Conclude, Entries, WellFormed, ValidEnvironment, ValidDeclaration, Mirrors,
      TellsBoundary, Degraded, Names, Reached, UnclosedAt, NotedAt, CountAt, FieldsAt, OpenCount, Seal;
    var declared := Declared(Names(supported), Names(unsupported));
    var l, es := Run(stream, declared), Entries(stream);
    NamesDisjoint(supported, unsupported);
    OrderlyMirrors(stream, declared);
    SettledKeys(l, es, declared);
    SettledConcludes(l, es, declared, env);
    forall n | n in l.boundaries
      ensures TellsBoundary(Seal(Settle(l, l.order).boundaries[n], false, Degraded(env)), es, n, declared, env)
    {
      SettledTells(l, es, declared, n);
      SealTells(Settle(l, l.order).boundaries[n], es, n, declared, env);
    }
  }

  lemma SettledKeys(l: Ledger, es: seq<Entry>, declared: Declared)
    requires Mirrors(l, es, declared)
    ensures Settle(l, l.order).boundaries.Keys == l.boundaries.Keys
    ensures forall n :: n in l.boundaries <==> Reached(es, n, declared)
  {
    hide Settle, SeenMatch, Running, OpenAt, Balanced, OpenCount, Started, Closed, Reached, Detailed;
    CallsAreReached(l, es, declared);
    SettleEffect(l, l.order);
  }

  lemma SettledConcludes(l: Ledger, es: seq<Entry>, declared: Declared, env: Environment)
    requires Mirrors(l, es, declared)
    ensures var s := Settle(l, l.order);
            Conclude(s, declared, env).boundaries
            == map n | n in s.boundaries :: Seal(s.boundaries[n], false, Degraded(env))
  {
    hide Settle, Conclude, Matches, Detailed, Books, Balanced, Seal, Degraded;
    SettleTotals(l, l.order);
    SettledIsClean(l, Settle(l, l.order));
    ConcludeClean(Settle(l, l.order), declared, env);
  }

  // ---------- the capture as a whole ----------

  lemma {:induction false} SumIsZero(bs: map<string, Boundary>, c: Column)
    ensures Sum(bs, c) == 0 <==> forall n :: n in bs ==> Cell(bs[n], c) == 0
    decreases |bs|
  {
    if bs != map[] {
      var n :| n in bs;
      SumWithout(bs, n, c);
      SumIsZero(bs - {n}, c);
      assert forall m :: m in bs ==> m == n || m in bs - {n};
    }
  }

  lemma {:induction false} FieldsPositive(es: seq<Entry>, n: string, s: FieldState)
    ensures FieldsAt(es, n, s) > 0 <==> FieldAt(es, n, s)
  {
    if es != [] {
      var front, last := es[..|es| - 1], es[|es| - 1];
      FieldsPositive(front, n, s);
      CountPositive(last.states, s);
      SnocFacts(front, last);
      assert es == front + [last];
    }
  }

  lemma {:induction false} CountPositive(states: seq<FieldState>, s: FieldState)
    ensures CountOf(states, s) > 0 <==> s in states
  {
    if states != [] {
      CountPositive(states[..|states| - 1], s);
      assert states == states[..|states| - 1] + [states[|states| - 1]];
    }
  }

  lemma {:induction false} OpenPositive(l: Ledger, ids: seq<string>, n: string)
    ensures OpenCount(ids, l.calls, n) > 0 <==> OpenAt(l, ids, n)
  {
    if ids != [] {
      OpenPositive(l, ids[..|ids| - 1], n);
      OpenAtSnoc(l, ids, n);
    }
  }

  // Totals are zero exactly when nothing of the kind is anywhere.
  lemma SettledTotals(l: Ledger, es: seq<Entry>, declared: Declared)
    requires Mirrors(l, es, declared)
    ensures var s := Settle(l, l.order);
            && (s.totals.omitted != 0 <==> exists n :: n in l.boundaries && FieldAt(es, n, Omitted))
            && (s.totals.unsupportedFields != 0 <==> exists n :: n in l.boundaries && FieldAt(es, n, NotSupported))
            && (s.totals.missing != 0 <==> exists n :: n in l.boundaries && UnclosedAt(es, n))
  {
    hide Settle, OpenAt, NotedAt, UnclosedAt, CountAt, FieldsAt, FieldAt, OpenCount, Matches, Detailed, Sum;
    var s := Settle(l, l.order);
    SettleBooks(l, l.order);
    SumIsZero(s.boundaries, OmittedFields);
    SumIsZero(s.boundaries, UnsupportedFields);
    SumIsZero(s.boundaries, Missing);
    forall n | n in l.boundaries
      ensures n in s.boundaries
              && (s.boundaries[n].omitted != 0 <==> FieldAt(es, n, Omitted))
              && (s.boundaries[n].unsupportedFields != 0 <==> FieldAt(es, n, NotSupported))
              && (s.boundaries[n].missing != 0 <==> UnclosedAt(es, n))
    {
      SettledTells(l, es, declared, n);
      FieldsPositive(es, n, Omitted);
      FieldsPositive(es, n, NotSupported);
      OpenPositive(l, l.order, n);
      MatchesCalls(l, es, declared);
      OpenIsUnclosed(l, es, n);
    }
    assert Sum(s.boundaries, OmittedFields) == Total(s.totals, OmittedFields);
    assert Sum(s.boundaries, UnsupportedFields) == Total(s.totals, UnsupportedFields);
    assert Sum(s.boundaries, Missing) == Total(s.totals, Missing);
    assert forall n :: n in l.boundaries ==> Cell(s.boundaries[n], OmittedFields) == s.boundaries[n].omitted;
    assert forall n :: n in l.boundaries ==>
                         Cell(s.boundaries[n], UnsupportedFields) == s.boundaries[n].unsupportedFields;
    assert forall n :: n in l.boundaries ==> Cell(s.boundaries[n], Missing) == s.boundaries[n].missing;
  }

  lemma MatchesCalls(l: Ledger, es: seq<Entry>, declared: Declared)
    requires Matches(l, es, declared)
    ensures CallsMatch(l, es)
  {}

  // What some boundary shows, some event shows.
  lemma SomewhereIs(es: seq<Entry>, declared: Declared, bs: set<string>)
    requires forall n :: n in bs <==> Reached(es, n, declared)
    ensures (exists n :: n in bs && FieldAt(es, n, Omitted)) <==> SomeFieldOmitted(es)
    ensures (exists n :: n in bs && FieldAt(es, n, NotSupported)) <==> SomeFieldUnsupported(es)
    ensures (exists n :: n in bs && UnclosedAt(es, n)) <==> SomeStartUnclosed(es)
    ensures bs - declared.supported - declared.unsupported != {} <==> SomeUndeclared(es, declared)
  {
    if i :| 0 <= i < |es| && Omitted in es[i].states {
      assert es[i].boundary in bs && FieldAt(es, es[i].boundary, Omitted);
    }
    if i :| 0 <= i < |es| && NotSupported in es[i].states {
      assert es[i].boundary in bs && FieldAt(es, es[i].boundary, NotSupported);
    }
    if i :| 0 <= i < |es| && es[i].kind.Start? && !Closed(es, es[i].id) {
      assert es[i].boundary in bs && UnclosedAt(es, es[i].boundary);
    }
    if i :| 0 <= i < |es| && es[i].boundary !in declared.supported + declared.unsupported {
      assert es[i].boundary in bs - declared.supported - declared.unsupported;
    }
    if bs - declared.supported - declared.unsupported != {} {
      var n :| n in bs - declared.supported - declared.unsupported;
      assert Reached(es, n, declared);
    }
  }

  predicate SomeFieldUnsupported(es: seq<Entry>) {
    exists i :: 0 <= i < |es| && NotSupported in es[i].states
  }

  predicate SomeUndeclared(es: seq<Entry>, declared: Declared) {
    exists i :: 0 <= i < |es| && es[i].boundary !in declared.supported + declared.unsupported
  }

  lemma LedgerIssuesAre(issues: seq<Code>, l: Ledger, declared: Declared)
    ensures forall c :: c in LedgerIssues(issues, l, declared) <==>
              || c in issues
              || (c == MissingTerminal && l.totals.missing != 0)
              || (c == RequiredFieldOmitted && l.totals.omitted != 0)
              || (c == RequiredFieldUnsupported && l.totals.unsupportedFields != 0)
              || (c == UnsupportedBoundary && declared.unsupported != {})
              || (c == UndeclaredBoundary && l.boundaries.Keys - declared.supported - declared.unsupported != {})
  {}

  // THE ISSUES OF AN ORDERLY ACCOUNT, every code with its own cause.
  lemma OrderlyIssues(stream: seq<Item>, supported: seq<Option<string>>, unsupported: seq<Option<string>>,
                      env: Environment)
    requires ValidEnvironment(env) && ValidDeclaration(supported, unsupported)
    requires WellFormed(stream) && Orderly(Entries(stream))
    ensures var a, es := AccountFor(stream, supported, unsupported, env), Entries(stream);
            var declared := Declared(Names(supported), Names(unsupported));
            forall c :: c in a.issues <==>
              || FromEnvironment(c, env)
              || (c == MissingTerminal && SomeStartUnclosed(es))
              || (c == RequiredFieldOmitted && SomeFieldOmitted(es))
              || (c == RequiredFieldUnsupported && SomeFieldUnsupported(es))
              || (c == UnsupportedBoundary && declared.unsupported != {})
              || (c == UndeclaredBoundary && SomeUndeclared(es, declared))
  {
    hide Run, Settle, Orderly, Entries, WellFormed, ValidEnvironment, ValidDeclaration, Mirrors, Names, Reached,
      SomeStartUnclosed, SomeFieldOmitted, SomeFieldUnsupported, SomeUndeclared, FromEnvironment, LedgerIssues,
      EnvironmentIssues, FieldAt, UnclosedAt, SomeInvalid, SomeIncomplete, Overall, Seal;
    var declared := Declared(Names(supported), Names(unsupported));
    var l, es := Run(stream, declared), Entries(stream);
    NamesDisjoint(supported, unsupported);
    OrderlyMirrors(stream, declared);
    SettledKeys(l, es, declared);
    SettledTotals(l, es, declared);
    SomewhereIs(es, declared, l.boundaries.Keys);
    var s := Settle(l, l.order);
    SettleTotals(l, l.order);
    NoLedgerIssues(l, es, declared);
    EnvironmentIssueSet(s.issues, env);
    LedgerIssuesAre(EnvironmentIssues(s.issues, env), s, declared);
  }

  lemma NoLedgerIssues(l: Ledger, es: seq<Entry>, declared: Declared)
    requires Mirrors(l, es, declared)
    ensures l.issues == []
  {
    hide Matches, Detailed, Books, Balanced;
    SomeMember(l.issues);
  }

  lemma SomeMember(codes: seq<Code>)
    ensures codes != [] ==> exists c :: c in codes
  {
    if codes != [] { assert codes[0] in codes; }
  }

  // A DISORDERLY ACCOUNT is invalid at every boundary and says so there.
  lemma DisorderlyBoundaries(stream: seq<Item>, supported: seq<Option<string>>, unsupported: seq<Option<string>>,
                             env: Environment)
    requires ValidEnvironment(env) && ValidDeclaration(supported, unsupported)
    requires !WellFormed(stream) || !Orderly(Entries(stream))
    ensures var a := AccountFor(stream, supported, unsupported, env);
            forall n :: n in a.boundaries ==>
              a.boundaries[n].status == Invalid && GlobalInvalidCapture in a.boundaries[n].issues
  {
    hide Run, Settle, EnvironmentIssues, LedgerIssues, SomeInvalid, SomeIncomplete, Orderly, WellFormed, Entries, Names,
      ValidEnvironment, ValidDeclaration, IssuesMatch, Clean, Matches, Overall;
    var declared := Declared(Names(supported), Names(unsupported));
    var l := Run(stream, declared);
    NamesDisjoint(supported, unsupported);
    RunMatches(stream, declared);
    DirtyAccount(stream, declared, env);
    RunIssues(stream, declared);
    SettleTotals(l, l.order);
    var s := Settle(l, l.order);
    SettledIsDirty(l, s);
    ConcludedIssues(s, declared, env);
    forall n | n in s.boundaries { AddNewMembers(s.boundaries[n].issues, GlobalInvalidCapture); }
  }

  lemma SettledIsDirty(l: Ledger, s: Ledger)
    requires IssuesMatch(l) && s.issues == l.issues && s.totals == l.totals.(missing := s.totals.missing)
    ensures IssuesMatch(s) && (Clean(s) <==> Clean(l))
  {}
}
