// The main theorem of the builder and the validator: exactly when a loaded capture can be published.

module Publication {
  import opened Wrappers
  import opened Sequences
  import opened Vocabulary
  import opened Records
  import opened Evidence
  import opened Accounting
  import opened AccountingSpec
  import opened Validator
  import opened Builder
  import opened IntakeFacts
  import opened Events
  import opened Agreement

  // ---------- the condition, on the records themselves ----------

  // A reason that will be published is not blank.
  predicate Given(raw: RawField) {
    raw.Hidden? && raw.reason != "" ==> NonBlank(raw.reason)
  }

  predicate GivenExactly(raw: RawField) {
    raw.Hidden? && raw.exact && raw.reason != "" ==> NonBlank(raw.reason)
  }

  predicate TextualParent(start: Record) {
    if start.kind.CodeStart? then NonEmpty(start.parentInvocation) ==> NonBlank(start.parentInvocation.value)
    else
      match start.parentSession
      case Shown(Text(id)) => id != "" ==> NonBlank(id)
      case Hidden(_, reason, _) => NonBlank(reason)
      case _ => true
  }

  // Every text this start publishes is non-blank.
  predicate TextualStart(id: string, t: Intake)
    requires id in t.starts
  {
    var start, terminal := t.starts[id], Lookup(t.terminals, id);
    && NonBlank(id)
    && GivenExactly(start.tool) && GivenExactly(start.agent) && GivenExactly(start.sessionId)
    && GivenExactly(start.messageId) && GivenExactly(start.callId)
    && Given(start.input) && TextualParent(start)
    && (start.kind.NativeStart? && Paired(start, terminal) ==>
          Given(if terminal.value.outcome.Succeeded? then terminal.value.result else terminal.value.error))
  }

  predicate Textual(c: Capture) {
    var t := Take(c.issues, c.records);
    forall id :: id in t.starts ==> TextualStart(id, t)
  }

  // A bare string that `_identity` accepts but `_available_string` does not see, other than "execute".
  predicate AlienTool(raw: RawField) {
    raw.BareText? && raw.text != "" && '\0' !in raw.text && raw.text != "execute"
  }

  predicate AlienOuter(c: Capture) {
    var t := Take(c.issues, c.records);
    exists id :: id in t.starts && t.starts[id].kind.CodeStart? && NonEmpty(t.starts[id].parentInvocation)
      && t.starts[id].parentInvocation.value in t.starts
      && AlienTool(t.starts[t.starts[id].parentInvocation.value].tool)
  }

  // ---------- observations ----------

  lemma ProjectValid(raw: RawField, guard: Guard)
    requires TextualGuard(guard)
    ensures ValidField(Project(raw, guard)) <==> Given(raw)
  {
    OwnReasonsAreText();
    if raw.Shown? {
      match guard(raw.value)
      case Keep =>
      case Redact =>
      case Refuse(reason) =>
    }
  }

  lemma IdentityValid(raw: RawField, reason: string)
    requires NonBlank(reason)
    ensures ValidField(IdentityField(raw, reason)) <==> GivenExactly(raw)
  {}

  lemma ParentValid(start: Record)
    ensures ValidParent(ParentOf(start)) <==> TextualParent(start)
  {
    OwnReasonsAreText();
  }

  lemma ShapeIffTextual(id: string, t: Intake, guard: Guard)
    requires Kept(t) && id in t.starts && TextualGuard(guard)
    ensures ValidShape(Observe(id, t.starts[id], Lookup(t.terminals, id), guard)) <==> TextualStart(id, t)
  {
    hide NonBlank, IdentityField, Project, ParentOf, ValidParent, EarlyFault;
    var start, terminal := t.starts[id], Lookup(t.terminals, id);
    OwnReasonsAreText();
    IdentityValid(start.tool, TOOL_UNAVAILABLE);
    IdentityValid(start.agent, ACTOR_UNAVAILABLE);
    IdentityValid(start.sessionId, SESSION_UNAVAILABLE);
    IdentityValid(start.messageId, MESSAGE_UNAVAILABLE);
    IdentityValid(start.callId, CALL_UNAVAILABLE);
    ParentValid(start);
    ProjectValid(start.input, guard);
    if terminal.Some? {
      ProjectValid(terminal.value.result, guard);
      ProjectValid(terminal.value.error, guard);
    }
  }

  // For a sound code start the validator finds the outer call the builder found, unless it bears an alien tool.
  lemma OuterAgrees(child: Record, outer: Record, childId: string, outerId: string,
                    childTerminal: Option<Record>, outerTerminal: Option<Record>, guard: Guard)
    requires child.kind.CodeStart? && outer.kind.NativeStart? && SameIdentity(outer, child)
    requires ShownText(outer.tool).Some? ==> ShownText(outer.tool).value == "execute"
    ensures OuterOf(Observe(outerId, outer, outerTerminal, guard), Observe(childId, child, childTerminal, guard))
            <==> !AlienTool(outer.tool)
  {}

  lemma IndexOf(ids: seq<string>, id: string) returns (k: nat)
    requires id in ids
    ensures k < |ids| && ids[k] == id
  {
    k :| 0 <= k < |ids| && ids[k] == id;
  }

  lemma ParentAt(c: Capture, guard: Guard, j: nat)
    requires Sound(c) && j < |Ids(c)|
    requires Take(c.issues, c.records).starts[Ids(c)[j]].kind.CodeStart?
    ensures var t := Take(c.issues, c.records); var os := ObservationsOf(Ids(c), t, guard);
            ParentEstablished(os[..j], os[j])
            <==> !AlienTool(t.starts[t.starts[Ids(c)[j]].parentInvocation.value].tool)
  {
    hide Take, Sorted, Ids;
    var t := Take(c.issues, c.records);
    var ids := Ids(c);
    var os := ObservationsOf(ids, t, guard);
    IdsIncreasing(c);
    TakeKeeps(c.issues, c.records);
    assert ids[j] in ids && SoundStart(ids[j], t);
    var child := t.starts[ids[j]];
    var p := child.parentInvocation.value;
    var k := IndexOf(ids, p);
    assert k < j;
    OuterAgrees(child, t.starts[p], ids[j], p, Lookup(t.terminals, ids[j]), Lookup(t.terminals, p), guard);
    assert os[..j][k] == os[k] && os[k].id == p;
    if ParentEstablished(os[..j], os[j]) {
      var m :| 0 <= m < |os[..j]| && os[..j][m].id == p && OuterOf(os[..j][m], os[j]);
      assert os[m].id == ids[m] && os[k].id == ids[k];
      assert m == k;
    }
  }

  // Every Code Mode observation finds its outer call among the earlier ones.
  predicate ParentsHold(os: seq<Observation>) {
    forall j :: 0 <= j < |os| && os[j].mode.CodeMode? ==> ParentEstablished(os[..j], os[j])
  }

  lemma ParentsHoldIff(c: Capture, guard: Guard)
    requires Sound(c)
    ensures ParentsHold(ObservationsOf(Ids(c), Take(c.issues, c.records), guard)) <==> !AlienOuter(c)
  {
    hide Take, Sorted, Ids, AlienTool, ParentEstablished;
    var t := Take(c.issues, c.records);
    var ids := Ids(c);
    var os := ObservationsOf(ids, t, guard);
    TakeKeeps(c.issues, c.records);
    if AlienOuter(c) {
      var id :| id in t.starts && t.starts[id].kind.CodeStart? && NonEmpty(t.starts[id].parentInvocation)
        && t.starts[id].parentInvocation.value in t.starts
        && AlienTool(t.starts[t.starts[id].parentInvocation.value].tool);
      var j := IndexOf(ids, id);
      ParentAt(c, guard, j);
      assert os[j].mode.CodeMode?;
    } else {
      forall j | 0 <= j < |os| && os[j].mode.CodeMode? ensures ParentEstablished(os[..j], os[j]) {
        assert ids[j] in ids && SoundStart(ids[j], t) && t.starts[ids[j]].kind.CodeStart?;
        ParentAt(c, guard, j);
      }
    }
  }

  lemma ShapesIff(c: Capture, guard: Guard)
    requires TextualGuard(guard)
    ensures (forall o :: o in ObservationsOf(Ids(c), Take(c.issues, c.records), guard) ==> ValidShape(o))
            <==> Textual(c)
  {
    hide Take, Sorted, Ids, ValidShape, TextualStart;
    var t := Take(c.issues, c.records);
    var ids := Ids(c);
    var os := ObservationsOf(ids, t, guard);
    TakeKeeps(c.issues, c.records);
    forall j | 0 <= j < |os| ensures ids[j] in t.starts && (ValidShape(os[j]) <==> TextualStart(ids[j], t)) {
      assert ids[j] in ids;
      ShapeIffTextual(ids[j], t, guard);
    }
    if forall o :: o in os ==> ValidShape(o) {
      forall id | id in t.starts ensures TextualStart(id, t) {
        var j := IndexOf(ids, id);
        assert os[j] in os;
      }
    }
  }

  lemma ObservationsValid(c: Capture, guard: Guard, status: Status)
    requires TextualGuard(guard) && (status.Invalid? <==> !Sound(c))
    ensures ValidObservations(ObservationsOf(Ids(c), Take(c.issues, c.records), guard), status)
            <==> Textual(c) && (Sound(c) ==> !AlienOuter(c))
  {
    hide Take, Ids, Textual, AlienOuter, ValidShape, Follows, ParentsHold;
    var os := ObservationsOf(Ids(c), Take(c.issues, c.records), guard);
    ObservationsApart(c, guard);
    ShapesIff(c, guard);
    if Sound(c) { ParentsHoldIff(c, guard); }
    FollowsIffParents(os, status);
    assert forall j :: 0 <= j < |os| ==> os[j] in os;
  }

  lemma FollowsIffParents(os: seq<Observation>, status: Status)
    requires AllApart(os)
    ensures (forall j :: 0 <= j < |os| ==> Follows(os[..j], os[j], status))
            <==> status.Invalid? || ParentsHold(os)
  {}

  // ---------- header and totals ----------

  lemma {:induction false} TerminalCountBound(os: seq<Observation>)
    ensures TerminalCount(os) <= |os|
  {
    if os != [] { TerminalCountBound(os[..|os| - 1]); }
  }

  lemma {:induction false} LimitsAdded(unsupported: seq<Code>, issues: seq<Code>)
    requires OwnCodes(unsupported) && OwnCodes(issues) && NoDuplicates(unsupported)
    ensures var r := AddLimits(unsupported, issues);
            OwnCodes(r) && NoDuplicates(r) && forall c :: c in unsupported ==> c in r
  {
    if issues != [] {
      assert issues == issues[..|issues| - 1] + [issues[|issues| - 1]];
      LimitsAdded(unsupported, issues[..|issues| - 1]);
      AddNewMembers(AddLimits(unsupported, issues[..|issues| - 1]), issues[|issues| - 1]);
    }
  }

  lemma OwnIsValid(codes: seq<Code>)
    requires OwnCodes(codes) && NoDuplicates(codes)
    ensures ValidCodes(codes)
  {}

  lemma BoundaryPublished(b: Boundary, started: bool)
    requires OwnCodes(b.issues)
    ensures ValidBoundary(PublicBoundaryOf(b, started)) && OwnCodes(PublicBoundaryOf(b, started).issues)
  {
    OwnReasonsAreText();
    OwnIsValid(Dedupe(b.issues));
  }

  lemma LimitsValid(native: PublicBoundary, code: PublicBoundary)
    requires OwnCodes(native.issues) && OwnCodes(code.issues)
    ensures ValidCodes(Limits(native, code)) && CodeModeFinality in Limits(native, code)
  {
    var l0 := [CodeModeFinality];
    assert CodeModeFinality in l0;
    LimitsAdded(l0, native.issues);
    var l1 := if native.status.Unsupported? then AddLimits(l0, native.issues) else l0;
    LimitsAdded(l1, code.issues);
    OwnIsValid(Limits(native, code));
  }

  lemma FinalityPublished()
    ensures ValidBoundary(UnsupportedBoundaryFor(FINALITY_REASON, CodeModeFinality))
  {
    hide NonBlank;
    OwnReasonsAreText();
    OwnIsValid([CodeModeFinality]);
  }

  lemma HeaderValid(c: Capture, guard: Guard, process: ProcessState)
    requires LoaderCapture(c)
    ensures ValidHeader(Build(c, guard, process))
    ensures CodeModeFinality in Build(c, guard, process).coverage.unsupported
  {
    hide BuilderAccount, PublicLosses, Limits, PublicBoundaryOf, ObservationsOf, TerminalCount, NonBlank, ValidBoundary,
      ValidCodes, Take, Sorted, OwnCodes, NoDuplicates, UnsupportedBoundaryFor;
    var a := BuilderAccount(c, guard, process);
    var e := Build(c, guard, process);
    var native := BoundaryIn(a, NATIVE);
    var code := BoundaryIn(a, CODE_EXECUTION);
    BoundaryNamesDiffer();
    OwnReasonsAreText();
    PublishedLosses(c, guard, process);
    OwnAccount(c, guard, process);
    BoundaryPublished(native, c.started);
    BoundaryPublished(code, c.started);
    LimitsValid(PublicBoundaryOf(native, c.started), PublicBoundaryOf(code, c.started));
    FinalityPublished();
    TerminalCountBound(e.observations);
  }

  lemma OwnAccount(c: Capture, guard: Guard, process: ProcessState)
    ensures OwnCodes(BoundaryIn(BuilderAccount(c, guard, process), NATIVE).issues)
    ensures OwnCodes(BoundaryIn(BuilderAccount(c, guard, process), CODE_EXECUTION).issues)
  {
    hide AccountFor;
    AccountOwn(AccountingEvents(c, guard), BuilderEnvironment(c, process));
  }

  // Unknown totals come with a loss and never with a complete or unsupported status.
  lemma TotalsValid(c: Capture, guard: Guard, process: ProcessState)
    requires LoaderCapture(c)
    ensures ValidTotals(Build(c, guard, process))
  {
    hide BuilderAccount, PublicLosses, Limits, PublicBoundaryOf, ObservationsOf, NonBlank;
    var e := Build(c, guard, process);
    TerminalCountBound(e.observations);
    if !c.started { UnstartedStatus(c, guard, process); }
  }

  lemma UnstartedStatus(c: Capture, guard: Guard, process: ProcessState)
    requires LoaderCapture(c) && !c.started
    ensures var a := BuilderAccount(c, guard, process);
            (a.status.Incomplete? || a.status.Invalid?) && PublicLosses(c, a) != []
  {
    hide AccountFor;
    var a := BuilderAccount(c, guard, process);
    var x := c.issues[0];
    LossCodesOf(c);
    assert x in c.issues && x in LossCodes(c) && x in PublicLosses(c, a);
    TakeLosses(c.issues, c.records);
    FixedDeclaration();
    CountsIncomplete(LossCodes(c));
    AccountMeetsSpec(AccountingEvents(c, guard), SUPPORTED, UNSUPPORTED, BuilderEnvironment(c, process));
    SoundEvents(c, guard);
    if InvalidCapture(x) {
      assert Take(c.issues, c.records).invalid;
    }
  }

  // ---------- the theorem ----------

  // For every capture the loader and the transport can return, what the builder builds passes the validator
  // if and only if every published text is non-blank and, unless the capture is unsound anyway, no Code Mode
  // parent bears its tool as a bare string other than "execute".
  lemma PublishableExactly(c: Capture, guard: Guard, process: ProcessState)
    requires LoaderCapture(c) && TextualGuard(guard)
    ensures Valid(Build(c, guard, process)) <==> Textual(c) && (Sound(c) ==> !AlienOuter(c))
  {
    hide BuilderAccount, PublicLosses, Limits, ObservationsOf, TerminalCount, NonBlank,
      Reaccounted, ValidHeader, ValidTotals, ValidObservations, Textual, AlienOuter, Take;
    var e := Build(c, guard, process);
    HeaderValid(c, guard, process);
    TotalsValid(c, guard, process);
    InvalidIffUnsound(c, guard, process);
    ObservationsValid(c, guard, e.status);
    SecondAccountAgrees(c, guard, process);
    BoundaryNamesDiffer();
    assert AgreesWithAccounting(e);
  }
}
