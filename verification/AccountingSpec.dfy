// What the accounting promises, stated on the stream alone, and the proof that the ledger meets it.

module AccountingSpec {
  import opened Wrappers
  import opened Sequences
  import opened Vocabulary
  import opened Accounting

  // ---------- the declarative reading of a stream ----------

  predicate WellFormed(stream: seq<Item>) {
    forall i :: 0 <= i < |stream| ==> Decode(stream[i]).Some?
  }

  function Entries(stream: seq<Item>): seq<Entry>
    requires WellFormed(stream)
  {
    seq(|stream|, i requires 0 <= i < |stream| => Decode(stream[i]).value)
  }

  // Start s is the one terminal t may close.
  predicate Opens(s: Entry, t: Entry) {
    s.kind.Start? && s.id == t.id && s.boundary == t.boundary && s.sequence < t.sequence
  }

  predicate Started(es: seq<Entry>, id: string) {
    exists i :: 0 <= i < |es| && es[i].kind.Start? && es[i].id == id
  }

  predicate Closed(es: seq<Entry>, id: string) {
    exists i :: 0 <= i < |es| && es[i].kind.Terminal? && es[i].id == id
  }

  // e may follow es: a new sequence, and either a new invocation or the first terminal of an open one.
  predicate Fits(es: seq<Entry>, e: Entry) {
    && (forall i :: 0 <= i < |es| ==> es[i].sequence != e.sequence)
    && (e.kind.Start? ==> !Started(es, e.id))
    && (e.kind.Terminal? ==> !Closed(es, e.id) && exists i :: 0 <= i < |es| && Opens(es[i], e))
  }

  predicate Orderly(es: seq<Entry>) {
    forall j :: 0 <= j < |es| ==> Fits(es[..j], es[j])
  }

  predicate FieldAt(es: seq<Entry>, n: string, s: FieldState) {
    exists i :: 0 <= i < |es| && es[i].boundary == n && s in es[i].states
  }

  predicate UnclosedAt(es: seq<Entry>, n: string) {
    exists i :: 0 <= i < |es| && es[i].kind.Start? && es[i].boundary == n && !Closed(es, es[i].id)
  }

  predicate Degraded(env: Environment) {
    || !env.closed || env.observerFailures != 0 || env.callbackFailures != 0 || env.losses != 0
    || env.process == Some(TimedOut) || env.process == Some(Interrupted)
  }

  // The status an orderly stream earns one boundary.
  function Verdict(es: seq<Entry>, n: string, declared: Declared, env: Environment): Status {
    if Degraded(env) || FieldAt(es, n, Omitted) || UnclosedAt(es, n) then Incomplete
    else if n !in declared.supported || FieldAt(es, n, NotSupported) then Unsupported
    else Complete
  }

  predicate Reached(es: seq<Entry>, n: string, declared: Declared) {
    n in declared.supported || n in declared.unsupported
    || exists i :: 0 <= i < |es| && es[i].boundary == n
  }

  predicate SomeFieldOmitted(es: seq<Entry>) {
    exists i :: 0 <= i < |es| && Omitted in es[i].states
  }

  predicate SomeStartUnclosed(es: seq<Entry>) {
    exists i :: 0 <= i < |es| && es[i].kind.Start? && !Closed(es, es[i].id)
  }

  predicate SomeBoundarySound(es: seq<Entry>, declared: Declared) {
    exists n :: n in declared.supported && !FieldAt(es, n, NotSupported)
  }

  function OverallVerdict(stream: seq<Item>, declared: Declared, env: Environment): Status {
    if !WellFormed(stream) || !Orderly(Entries(stream)) then Invalid
    else
      var es := Entries(stream);
      if Degraded(env) || SomeFieldOmitted(es) || SomeStartUnclosed(es) then Incomplete
      else if SomeBoundarySound(es, declared) then Complete
      else Unsupported
  }

  // ---------- the ledger against the stream ----------

  predicate Clean(l: Ledger) {
    && l.totals.malformed == 0 && l.totals.duplicateSequences == 0
    && l.totals.duplicateInvocations == 0 && l.totals.ambiguous == 0
  }

  ghost predicate SeenMatch(l: Ledger, es: seq<Entry>) {
    forall x :: x in l.seen <==> exists i :: 0 <= i < |es| && es[i].sequence == x
  }

  ghost predicate CallsMatch(l: Ledger, es: seq<Entry>) {
    && (forall id :: id in l.calls <==> Started(es, id))
    && (forall id :: id in l.calls <==> id in l.order)
    && (forall id :: Closed(es, id) ==> Started(es, id))
    && (forall i {:trigger es[i]} :: 0 <= i < |es| && es[i].kind.Start? ==>
          es[i].id in l.calls && l.calls[es[i].id].boundary == es[i].boundary
          && l.calls[es[i].id].start == es[i].sequence)
    && (forall id :: id in l.calls ==> (l.calls[id].terminal.Some? <==> Closed(es, id)))
  }

  // The status of a boundary before the open calls are settled.
  function Running(es: seq<Entry>, n: string, declared: Declared): Status {
    Worse(if n in declared.supported then Complete else Unsupported,
          if FieldAt(es, n, Omitted) then Incomplete
          else if FieldAt(es, n, NotSupported) then Unsupported else Complete)
  }

  ghost predicate BoundariesMatch(l: Ledger, es: seq<Entry>, declared: Declared) {
    && (forall n :: n in l.boundaries <==> Reached(es, n, declared))
    && (forall n :: n in l.boundaries ==> l.boundaries[n].status == Running(es, n, declared))
  }

  ghost predicate Matches(l: Ledger, es: seq<Entry>, declared: Declared) {
    SeenMatch(l, es) && CallsMatch(l, es) && BoundariesMatch(l, es, declared)
  }

  lemma OrderlySnoc(es: seq<Entry>, e: Entry)
    ensures Orderly(es + [e]) <==> Orderly(es) && Fits(es, e)
  {
    var all := es + [e];
    assert all[..|es|] == es && all[|es|] == e;
    assert forall j :: 0 <= j < |es| ==> all[..j] == es[..j] && all[j] == es[j];
    if Orderly(all) {
      assert Fits(all[..|es|], all[|es|]);
      forall j | 0 <= j < |es| ensures Fits(es[..j], es[j]) {
        assert Fits(all[..j], all[j]);
      }
    }
  }

  lemma SnocFacts(es: seq<Entry>, e: Entry)
    ensures forall id :: Started(es + [e], id) <==> Started(es, id) || (e.kind.Start? && e.id == id)
    ensures forall id :: Closed(es + [e], id) <==> Closed(es, id) || (e.kind.Terminal? && e.id == id)
    ensures forall n, s :: FieldAt(es + [e], n, s) <==> FieldAt(es, n, s) || (e.boundary == n && s in e.states)
  {
    var all := es + [e];
    assert all[|es|] == e;
    forall id ensures Started(all, id) <==> Started(es, id) || (e.kind.Start? && e.id == id) {
      if Started(es, id) {
        var i :| 0 <= i < |es| && es[i].kind.Start? && es[i].id == id;
        assert all[i] == es[i];
      }
    }
    forall id ensures Closed(all, id) <==> Closed(es, id) || (e.kind.Terminal? && e.id == id) {
      if Closed(es, id) {
        var i :| 0 <= i < |es| && es[i].kind.Terminal? && es[i].id == id;
        assert all[i] == es[i];
      }
    }
    forall n, s ensures FieldAt(all, n, s) <==> FieldAt(es, n, s) || (e.boundary == n && s in e.states) {
      if FieldAt(es, n, s) {
        var i :| 0 <= i < |es| && es[i].boundary == n && s in es[i].states;
        assert all[i] == es[i];
      }
    }
  }

  // What the field states of one event do to the boundary it is posted to.
  function Burden(states: seq<FieldState>): Status {
    if Omitted in states then Incomplete else if NotSupported in states then Unsupported else Complete
  }

  lemma {:induction false} ChargeStatus(b: Boundary, states: seq<FieldState>)
    ensures Charge(b, states).status == Worse(b.status, Burden(states))
    ensures Charge(b, states).starts == b.starts && Charge(b, states).terminals == b.terminals
    ensures Charge(b, states).missing == b.missing
    ensures Charge(b, states).omitted == b.omitted + CountOf(states, Omitted)
    ensures Charge(b, states).unsupportedFields == b.unsupportedFields + CountOf(states, NotSupported)
  {
    if states != [] {
      var front := states[..|states| - 1];
      assert states == front + [states[|states| - 1]];
      ChargeStatus(b, front);
    }
  }

  // A clean ledger stays clean exactly when the next event fits.
  lemma PostClean(l: Ledger, es: seq<Entry>, e: Entry, declared: Declared)
    requires Clean(l) && Matches(l, es, declared)
    ensures Clean(Post(l, e, declared)) <==> Fits(es, e)
  {}

  lemma PostSeen(l: Ledger, es: seq<Entry>, e: Entry, declared: Declared)
    requires Clean(l) && Matches(l, es, declared) && Fits(es, e)
    ensures SeenMatch(Post(l, e, declared), es + [e])
  {
    var all := es + [e];
    var next := Post(l, e, declared);
    assert next.seen == l.seen + {e.sequence};
    assert forall i :: 0 <= i < |es| ==> all[i] == es[i];
    assert all[|es|] == e;
    forall x ensures x in next.seen <==> exists i :: 0 <= i < |all| && all[i].sequence == x {
      if x in l.seen {
        var i :| 0 <= i < |es| && es[i].sequence == x;
        assert all[i].sequence == x;
      }
      if x == e.sequence { assert all[|es|].sequence == x; }
    }
  }

  lemma FittingCalls(l: Ledger, es: seq<Entry>, e: Entry, declared: Declared)
    requires Clean(l) && Matches(l, es, declared) && Fits(es, e)
    ensures var next := Post(l, e, declared);
            if e.kind.Start? then
              e.id !in l.calls && next.order == l.order + [e.id]
              && next.calls == l.calls[e.id := Call(e.boundary, e.sequence, None)]
            else
              e.id in l.calls && next.order == l.order
              && next.calls == l.calls[e.id := l.calls[e.id].(terminal := Some(e.sequence))]
  {}

  lemma PostCalls(l: Ledger, es: seq<Entry>, e: Entry, declared: Declared)
    requires Clean(l) && Matches(l, es, declared) && Fits(es, e)
    ensures CallsMatch(Post(l, e, declared), es + [e])
  {
    hide Post, Started, Closed, SeenMatch, BoundariesMatch;
    var all := es + [e];
    var next := Post(l, e, declared);
    FittingCalls(l, es, e, declared);
    SnocFacts(es, e);
    assert forall i :: 0 <= i < |es| ==> all[i] == es[i];
    assert all[|es|] == e;
    forall i | 0 <= i < |all| && all[i].kind.Start?
      ensures all[i].id in next.calls && next.calls[all[i].id].boundary == all[i].boundary
              && next.calls[all[i].id].start == all[i].sequence
    {
      if i < |es| {
        assert es[i].id in l.calls && Started(es, es[i].id);
      }
    }
  }

  // A fitting event touches one boundary only, and leaves it with what its fields charge.
  lemma PostReach(l: Ledger, es: seq<Entry>, e: Entry, declared: Declared)
    requires Clean(l) && Matches(l, es, declared) && Fits(es, e)
    ensures var next := Post(l, e, declared);
            && next.boundaries.Keys == l.boundaries.Keys + {e.boundary}
            && (forall n :: n in l.boundaries && n != e.boundary ==> next.boundaries[n] == l.boundaries[n])
            && next.boundaries[e.boundary].status
               == Charge(Reach(l.boundaries, e.boundary, declared), e.states).status
  {}

  lemma PostBoundaries(l: Ledger, es: seq<Entry>, e: Entry, declared: Declared)
    requires Clean(l) && Matches(l, es, declared) && Fits(es, e)
    ensures BoundariesMatch(Post(l, e, declared), es + [e], declared)
  {
    var all := es + [e];
    var next := Post(l, e, declared);
    PostReach(l, es, e, declared);
    SnocFacts(es, e);
    ChargeStatus(Reach(l.boundaries, e.boundary, declared), e.states);
    assert all[|es|] == e;
    forall n ensures Reached(all, n, declared) <==> Reached(es, n, declared) || n == e.boundary {
      if i :| 0 <= i < |es| && es[i].boundary == n { assert all[i].boundary == n; }
      if n == e.boundary { assert all[|es|].boundary == n; }
    }
    forall n | n in next.boundaries
      ensures next.boundaries[n].status == Running(all, n, declared)
    {
      RunningSnoc(es, e, n, declared);
      if n == e.boundary { ReachStatus(l, es, n, declared); }
    }
  }

  lemma RunningSnoc(es: seq<Entry>, e: Entry, n: string, declared: Declared)
    ensures Running(es + [e], n, declared)
            == if n == e.boundary then Worse(Running(es, n, declared), Burden(e.states))
               else Running(es, n, declared)
  {
    SnocFacts(es, e);
  }

  lemma ReachStatus(l: Ledger, es: seq<Entry>, n: string, declared: Declared)
    requires BoundariesMatch(l, es, declared)
    ensures Reach(l.boundaries, n, declared).status == Running(es, n, declared)
  {}

  lemma BeginMatches(declared: Declared)
    requires declared.supported !! declared.unsupported
    ensures Clean(Begin(declared)) && Matches(Begin(declared), [], declared)
  {}

  lemma EntriesSnoc(stream: seq<Item>)
    requires stream != []
    ensures var front := stream[..|stream| - 1]; var last := stream[|stream| - 1];
            && (WellFormed(stream) <==> WellFormed(front) && Decode(last).Some?)
            && (WellFormed(stream) ==> Entries(stream) == Entries(front) + [Decode(last).value])
  {}

  // The ledger is clean exactly when the stream is well formed and orderly, and then it mirrors the stream.
  lemma {:induction false} RunMatches(stream: seq<Item>, declared: Declared)
    requires declared.supported !! declared.unsupported
    ensures Clean(Run(stream, declared)) <==> WellFormed(stream) && Orderly(Entries(stream))
    ensures Clean(Run(stream, declared)) ==> Matches(Run(stream, declared), Entries(stream), declared)
  {
    if stream == [] {
      BeginMatches(declared);
      assert Entries(stream) == [];
    } else {
      var front := stream[..|stream| - 1];
      var last := stream[|stream| - 1];
      RunMatches(front, declared);
      EntriesSnoc(stream);
      var l := Run(front, declared);
      if Clean(l) && Decode(last).Some? {
        var es, e := Entries(front), Decode(last).value;
        OrderlySnoc(es, e);
        PostClean(l, es, e, declared);
        if Fits(es, e) {
          PostSeen(l, es, e, declared);
          PostCalls(l, es, e, declared);
          PostBoundaries(l, es, e, declared);
        }
      } else {
        StepKeepsDirt(l, last, declared);
        if WellFormed(stream) {
          OrderlySnoc(Entries(front), Decode(last).value);
        }
      }
    }
  }

  lemma StepKeepsDirt(l: Ledger, item: Item, declared: Declared)
    ensures !Clean(l) ==> !Clean(Step(l, item, declared))
  {}

  // ---------- settling the open calls ----------

  predicate OpenAt(l: Ledger, ids: seq<string>, n: string) {
    exists i :: 0 <= i < |ids| && ids[i] in l.calls && l.calls[ids[i]].terminal.None?
                && l.calls[ids[i]].boundary == n
  }

  lemma OpenAtSnoc(l: Ledger, ids: seq<string>, n: string)
    requires ids != []
    ensures var last := ids[|ids| - 1];
            OpenAt(l, ids, n) <==>
            (|| OpenAt(l, ids[..|ids| - 1], n)
             || (last in l.calls && l.calls[last].terminal.None? && l.calls[last].boundary == n))
  {
    var front := ids[..|ids| - 1];
    if i :| 0 <= i < |front| && front[i] in l.calls && l.calls[front[i]].terminal.None?
            && l.calls[front[i]].boundary == n { assert ids[i] == front[i]; }
  }

  // Settling one call marks the boundary of an open one and nothing else.
  lemma SettleOneEffect(l: Ledger, id: string)
    requires id in l.calls ==> l.calls[id].boundary in l.boundaries
    ensures var s := SettleOne(l, id);
            && s.calls == l.calls && s.issues == l.issues && s.boundaries.Keys == l.boundaries.Keys
            && s.totals == l.totals.(missing := s.totals.missing)
            && (forall n :: n in l.boundaries ==>
                  s.boundaries[n].status
                  == if id in l.calls && l.calls[id].terminal.None? && l.calls[id].boundary == n
                     then Worse(l.boundaries[n].status, Incomplete) else l.boundaries[n].status)
  {}

  lemma {:induction false} SettleEffect(l: Ledger, ids: seq<string>)
    requires forall id :: id in l.calls ==> l.calls[id].boundary in l.boundaries
    ensures var s := Settle(l, ids);
            && s.calls == l.calls && s.issues == l.issues && s.boundaries.Keys == l.boundaries.Keys
            && s.totals == l.totals.(missing := s.totals.missing)
            && (forall n :: n in l.boundaries ==>
                  s.boundaries[n].status
                  == Worse(l.boundaries[n].status, if OpenAt(l, ids, n) then Incomplete else Complete))
  {
    hide SettleOne, OpenAt;
    if ids == [] {
      forall n { NothingOpen(l, n); }
    } else {
      var front, last := ids[..|ids| - 1], ids[|ids| - 1];
      SettleEffect(l, front);
      SettleOneEffect(Settle(l, front), last);
      forall n { OpenAtSnoc(l, ids, n); }
    }
  }

  lemma NothingOpen(l: Ledger, n: string)
    ensures !OpenAt(l, [], n)
  {}

  lemma OpenIsUnclosed(l: Ledger, es: seq<Entry>, n: string)
    requires CallsMatch(l, es)
    ensures OpenAt(l, l.order, n) <==> UnclosedAt(es, n)
  {}

  // ---------- the issue list ----------

  // Every ledger lists exactly the issues its counters record.
  ghost predicate IssuesMatch(l: Ledger) {
    && (MalformedObservation in l.issues <==> l.totals.malformed != 0)
    && (DuplicateSequence in l.issues <==> l.totals.duplicateSequences != 0)
    && (DuplicateInvocation in l.issues <==> l.totals.duplicateInvocations != 0)
    && (AmbiguousInvocation in l.issues <==> l.totals.ambiguous != 0)
    && (forall c :: c in l.issues ==>
          c.MalformedObservation? || c.DuplicateSequence? || c.DuplicateInvocation? || c.AmbiguousInvocation?)
  }

  // A step either counts nothing wrong and lists nothing, or counts one fault and lists its code.
  ghost predicate Lists(l: Ledger, next: Ledger) {
    var t, u := l.totals, next.totals;
    || (next.issues == l.issues && SameFaults(u, t))
    || (next.issues == AddNew(l.issues, MalformedObservation)
        && SameFaults(u, t.(malformed := t.malformed + 1)))
    || (next.issues == AddNew(l.issues, DuplicateSequence)
        && SameFaults(u, t.(duplicateSequences := t.duplicateSequences + 1)))
    || (next.issues == AddNew(l.issues, DuplicateInvocation)
        && SameFaults(u, t.(duplicateInvocations := t.duplicateInvocations + 1)))
    || (next.issues == AddNew(l.issues, AmbiguousInvocation)
        && SameFaults(u, t.(ambiguous := t.ambiguous + 1)))
  }

  predicate SameFaults(t: Totals, u: Totals) {
    && t.malformed == u.malformed && t.duplicateSequences == u.duplicateSequences
    && t.duplicateInvocations == u.duplicateInvocations && t.ambiguous == u.ambiguous
  }

  lemma StepLists(l: Ledger, item: Item, declared: Declared)
    ensures Lists(l, Step(l, item, declared))
  {}

  lemma StepIssues(l: Ledger, item: Item, declared: Declared)
    requires IssuesMatch(l)
    ensures IssuesMatch(Step(l, item, declared))
  {
    StepLists(l, item, declared);
    AddNewMembers(l.issues, MalformedObservation);
    AddNewMembers(l.issues, DuplicateSequence);
    AddNewMembers(l.issues, DuplicateInvocation);
    AddNewMembers(l.issues, AmbiguousInvocation);
  }

  lemma {:induction false} RunIssues(stream: seq<Item>, declared: Declared)
    ensures IssuesMatch(Run(stream, declared))
  {
    if stream != [] {
      RunIssues(stream[..|stream| - 1], declared);
      StepIssues(Run(stream[..|stream| - 1], declared), stream[|stream| - 1], declared);
    }
  }

  predicate FromEnvironment(c: Code, env: Environment) {
    || (c == ObservationNotClosed && !env.closed)
    || (c == ObserverFailure && env.observerFailures != 0)
    || (c == CallbackFailure && env.callbackFailures != 0)
    || (c == ObservationLoss && env.losses != 0)
    || (c == RuntimeTimeout && env.process == Some(TimedOut))
    || (c == ProcessInterrupted && env.process == Some(Interrupted))
  }

  lemma EnvironmentIssueSet(issues: seq<Code>, env: Environment)
    ensures forall c :: c in EnvironmentIssues(issues, env) <==> c in issues || FromEnvironment(c, env)
  {}

  predicate LedgerOnly(c: Code) {
    c.MissingTerminal? || c.RequiredFieldOmitted? || c.RequiredFieldUnsupported? || c.UnsupportedBoundary?
    || c.UndeclaredBoundary?
  }

  lemma LedgerIssueSet(issues: seq<Code>, l: Ledger, declared: Declared)
    ensures forall c :: c in issues ==> c in LedgerIssues(issues, l, declared)
    ensures forall c :: c in LedgerIssues(issues, l, declared) ==> c in issues || LedgerOnly(c)
  {}

  lemma InvalidCodes(issues: seq<Code>, l: Ledger, env: Environment)
    requires IssuesMatch(l)
    requires forall c :: c in l.issues ==> c in issues
    requires forall c :: c in issues ==> c in l.issues || FromEnvironment(c, env) || LedgerOnly(c)
    ensures SomeInvalid(issues) <==> !Clean(l)
    ensures MalformedObservation in issues <==> l.totals.malformed != 0
    ensures DuplicateSequence in issues <==> l.totals.duplicateSequences != 0
  {}

  lemma IncompleteCodes(issues: seq<Code>, l: Ledger, env: Environment)
    requires IssuesMatch(l)
    requires forall c :: FromEnvironment(c, env) ==> c in issues
    requires forall c :: c in issues ==> c in l.issues || FromEnvironment(c, env) || LedgerOnly(c)
    ensures SomeIncomplete(issues) <==> Degraded(env)
  {}

  // The codes that decide the account: the ledger's own and the environment's.
  lemma ConcludedIssues(l: Ledger, declared: Declared, env: Environment)
    requires IssuesMatch(l)
    ensures var issues := LedgerIssues(EnvironmentIssues(l.issues, env), l, declared);
            && (SomeInvalid(issues) <==> !Clean(l))
            && (SomeIncomplete(issues) <==> Degraded(env))
            && (MalformedObservation in issues <==> l.totals.malformed != 0)
            && (DuplicateSequence in issues <==> l.totals.duplicateSequences != 0)
  {
    EnvironmentIssueSet(l.issues, env);
    var early := EnvironmentIssues(l.issues, env);
    LedgerIssueSet(early, l, declared);
    var issues := LedgerIssues(early, l, declared);
    InvalidCodes(issues, l, env);
    IncompleteCodes(issues, l, env);
  }

  // ---------- the account ----------

  // An unclean capture: everything is invalid.
  lemma DirtyAccount(stream: seq<Item>, declared: Declared, env: Environment)
    requires !Clean(Run(stream, declared))
    ensures var a := Finish(Run(stream, declared), declared, env);
            && a.status == Invalid
            && (forall n :: n in a.boundaries ==> a.boundaries[n].status == Invalid)
  {
    hide Run, Settle, EnvironmentIssues, LedgerIssues, SomeInvalid, SomeIncomplete;
    var l := Run(stream, declared);
    RunIssues(stream, declared);
    SettleTotals(l, l.order);
    ConcludedIssues(Settle(l, l.order), declared, env);
  }

  lemma {:induction false} SettleTotals(l: Ledger, ids: seq<string>)
    ensures Settle(l, ids).totals == l.totals.(missing := Settle(l, ids).totals.missing)
    ensures Settle(l, ids).issues == l.issues
    ensures l.boundaries.Keys <= Settle(l, ids).boundaries.Keys
  {
    if ids != [] { SettleTotals(l, ids[..|ids| - 1]); }
  }

  // An orderly capture: each boundary carries the verdict its own events earn it.
  lemma CleanBoundaries(stream: seq<Item>, declared: Declared, env: Environment)
    requires declared.supported !! declared.unsupported
    requires Clean(Run(stream, declared))
    ensures var a := Finish(Run(stream, declared), declared, env);
            && WellFormed(stream) && Orderly(Entries(stream))
            && (forall n :: n in a.boundaries <==> Reached(Entries(stream), n, declared))
            && (forall n :: n in a.boundaries ==>
                  a.boundaries[n].status == Verdict(Entries(stream), n, declared, env))
            && a.status == Overall(a.boundaries, false, Degraded(env))
  {
    hide Run, Settle, Orderly, Entries, Conclude, Clean, IssuesMatch, CallsMatch, SeenMatch, Reached, Running, Verdict,
      Seal, OpenAt, Degraded;
    var l := Run(stream, declared);
    RunMatches(stream, declared);
    RunIssues(stream, declared);
    var es := Entries(stream);
    CallsAreReached(l, es, declared);
    SettleEffect(l, l.order);
    var s := Settle(l, l.order);
    SettledIsClean(l, s);
    ConcludeClean(s, declared, env);
    var a := Finish(l, declared, env);
    forall n | n in a.boundaries
      ensures a.boundaries[n].status == Verdict(es, n, declared, env)
    {
      OpenIsUnclosed(l, es, n);
      SealedIsVerdict(es, n, declared, env, s.boundaries[n]);
    }
  }

  lemma SettledIsClean(l: Ledger, s: Ledger)
    requires Clean(l) && IssuesMatch(l)
    requires s.issues == l.issues && s.totals == l.totals.(missing := s.totals.missing)
    ensures Clean(s) && IssuesMatch(s)
  {}

  lemma ConcludeClean(s: Ledger, declared: Declared, env: Environment)
    requires Clean(s) && IssuesMatch(s)
    ensures var a := Conclude(s, declared, env);
            && a.boundaries == (map n | n in s.boundaries :: Seal(s.boundaries[n], false, Degraded(env)))
            && a.status == Overall(a.boundaries, false, Degraded(env))
  {
    hide EnvironmentIssues, LedgerIssues, SomeInvalid, SomeIncomplete, Overall, Seal, IssuesMatch, Clean, Degraded;
    ConcludedIssues(s, declared, env);
  }

  lemma SealedIsVerdict(es: seq<Entry>, n: string, declared: Declared, env: Environment, b: Boundary)
    requires b.status == Worse(Running(es, n, declared), if UnclosedAt(es, n) then Incomplete else Complete)
    ensures Seal(b, false, Degraded(env)).status == Verdict(es, n, declared, env)
  {}

  lemma CallsAreReached(l: Ledger, es: seq<Entry>, declared: Declared)
    requires Matches(l, es, declared)
    ensures forall id :: id in l.calls ==> l.calls[id].boundary in l.boundaries
  {}

  lemma OverallMeetsSpec(es: seq<Entry>, declared: Declared, env: Environment, bs: map<string, Boundary>)
    requires forall n :: n in bs <==> Reached(es, n, declared)
    requires forall n :: n in bs ==> bs[n].status == Verdict(es, n, declared, env)
    requires declared.supported !! declared.unsupported
    ensures Overall(bs, false, Degraded(env))
            == if Degraded(env) || SomeFieldOmitted(es) || SomeStartUnclosed(es) then Incomplete
               else if SomeBoundarySound(es, declared) then Complete else Unsupported
  {
    if SomeFieldOmitted(es) {
      var i :| 0 <= i < |es| && Omitted in es[i].states;
      assert es[i].boundary in bs && FieldAt(es, es[i].boundary, Omitted);
      assert bs[es[i].boundary].status == Incomplete;
    }
    if SomeStartUnclosed(es) {
      var i :| 0 <= i < |es| && es[i].kind.Start? && !Closed(es, es[i].id);
      assert es[i].boundary in bs && UnclosedAt(es, es[i].boundary);
      assert bs[es[i].boundary].status == Incomplete;
    }
    if !Degraded(env) && SomeBoundary(bs, Incomplete) {
      var n :| n in bs && bs[n].status == Incomplete;
      assert FieldAt(es, n, Omitted) || UnclosedAt(es, n);
    }
    if SomeBoundarySound(es, declared) && !Degraded(env) && !SomeFieldOmitted(es) && !SomeStartUnclosed(es) {
      var n :| n in declared.supported && !FieldAt(es, n, NotSupported);
      assert n in bs && bs[n].status == Complete;
    }
  }

  // THE ACCOUNTING MEETS ITS SPECIFICATION, for every stream, declaration and environment it accepts.
  lemma AccountMeetsSpec(stream: seq<Item>, supported: seq<Option<string>>, unsupported: seq<Option<string>>,
                         env: Environment)
    ensures var a := AccountFor(stream, supported, unsupported, env);
            var declared := Declared(Names(supported), Names(unsupported));
            if !ValidEnvironment(env) || !ValidDeclaration(supported, unsupported) then a == REJECTED
            else
              && a.status == OverallVerdict(stream, declared, env)
              && (a.status == Invalid ==> forall n :: n in a.boundaries ==> a.boundaries[n].status == Invalid)
              && (a.status != Invalid ==>
                    && (forall n :: n in a.boundaries <==> Reached(Entries(stream), n, declared))
                    && (forall n :: n in a.boundaries ==>
                          a.boundaries[n].status == Verdict(Entries(stream), n, declared, env)))
  {
    var declared := Declared(Names(supported), Names(unsupported));
    if ValidEnvironment(env) && ValidDeclaration(supported, unsupported) {
      NamesDisjoint(supported, unsupported);
      RunMatches(stream, declared);
      if Clean(Run(stream, declared)) {
        CleanBoundaries(stream, declared, env);
        OverallMeetsSpec(Entries(stream), declared, env,
                         Finish(Run(stream, declared), declared, env).boundaries);
      } else {
        DirtyAccount(stream, declared, env);
      }
    }
  }

  lemma NamesDisjoint(supported: seq<Option<string>>, unsupported: seq<Option<string>>)
    requires ValidDeclaration(supported, unsupported)
    ensures Names(supported) !! Names(unsupported)
  {}

  // "complete" means exactly this. A process state of "unsupported" passes here just as "completed" does.
  lemma CompleteExactly(stream: seq<Item>, supported: seq<Option<string>>,
                        unsupported: seq<Option<string>>, env: Environment)
    requires ValidEnvironment(env) && ValidDeclaration(supported, unsupported)
    ensures AccountFor(stream, supported, unsupported, env).status == Complete
            <==> (&& env.closed && env.observerFailures == 0 && env.callbackFailures == 0 && env.losses == 0
                 && (env.process == Some(Completed) || env.process == Some(NoTransport))
                 && WellFormed(stream) && Orderly(Entries(stream))
                 && !SomeFieldOmitted(Entries(stream)) && !SomeStartUnclosed(Entries(stream))
                 && SomeBoundarySound(Entries(stream), Declared(Names(supported), Names(unsupported))))
  {
    AccountMeetsSpec(stream, supported, unsupported, env);
    match env.process.value
    case Completed =>
    case TimedOut =>
    case Interrupted =>
    case NoTransport =>
  }
}
