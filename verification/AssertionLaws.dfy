// Learning what was unknown never overturns a verdict, and a conclusive verdict is the truth about every
// completion of what was observed.

module AssertionLaws {
  import opened Wrappers
  import opened Sequences
  import opened Json
  import opened Evidence
  import opened Assertions

  // ---------- learning more ----------

  predicate FieldLearns(f: Field, g: Field) {
    f.Value? ==> g == f
  }

  // p is o with withheld fields, or a missing outcome, possibly replaced by known ones.
  predicate Learns(o: Observation, p: Observation) {
    && p.id == o.id && p.mode == o.mode && p.start == o.start
    && FieldLearns(o.tool, p.tool) && FieldLearns(o.actor, p.actor) && FieldLearns(o.sessionId, p.sessionId)
    && FieldLearns(o.messageId, p.messageId) && FieldLearns(o.callId, p.callId) && FieldLearns(o.input, p.input)
    && (o.outcome.Missing? || p.outcome == o.outcome)
    && FieldLearns(o.result, p.result) && FieldLearns(o.error, p.error)
  }

  predicate AllLearn(os: seq<Observation>, ps: seq<Observation>) {
    |os| == |ps| && forall i :: 0 <= i < |os| ==> Learns(os[i], ps[i])
  }

  predicate Keeps(t: Tri, u: Tri) {
    t == Unknown || u == t
  }

  lemma ResultStateKeeps(m: Matchers, o: Observation, p: Observation, a: ResultAssertion)
    requires Learns(o, p)
    ensures Keeps(ResultState(m, o, a), ResultState(m, p, a))
  {}

  lemma CallsKeep(m: Matchers, os: seq<Observation>, ps: seq<Observation>, c: CallAssertion)
    requires AllLearn(os, ps)
    ensures forall i :: 0 <= i < |os| ==> Keeps(CallState(m, os[i], c), CallState(m, ps[i], c))
    ensures SomeCall(m, os, c, Yes) ==> SomeCall(m, ps, c, Yes)
    ensures SomeCall(m, ps, c, Unknown) ==> SomeCall(m, os, c, Unknown)
    ensures !SomeCall(m, os, c, Unknown) ==>
              forall i :: 0 <= i < |os| ==> CallState(m, os[i], c) == CallState(m, ps[i], c)
  {}

  lemma {:induction false} CountKeeps(m: Matchers, os: seq<Observation>, ps: seq<Observation>, c: CallAssertion)
    requires |os| == |ps| && forall i :: 0 <= i < |os| ==> CallState(m, os[i], c) == CallState(m, ps[i], c)
    ensures CallCount(m, os, c) == CallCount(m, ps, c)
  {
    hide CallState;
    if os != [] { CountKeeps(m, os[..|os| - 1], ps[..|ps| - 1], c); }
  }

  lemma EarlierKeeps(m: Matchers, os: seq<Observation>, ps: seq<Observation>, after: Option<CallAssertion>, i: nat)
    requires AllLearn(os, ps) && i < |os|
    ensures Keeps(EarlierState(m, os, after, os[i]), EarlierState(m, ps, after, ps[i]))
  {}

  // With an occurrence the matching calls must all be known; then they stay the same calls.
  lemma CandidatesKeep(m: Matchers, os: seq<Observation>, ps: seq<Observation>, a: ResultAssertion, i: nat)
    requires AllLearn(os, ps) && i < |os|
    ensures (a.occurrence.Some? ==> !SomeCall(m, os, a.call, Unknown)) && Candidate(m, os, a, i) ==>
              Candidate(m, ps, a, i)
    ensures !SomeCall(m, os, a.call, Unknown) && Candidate(m, ps, a, i) ==> Candidate(m, os, a, i)
  {
    hide CallState, Learns;
    CallsKeep(m, os, ps, a.call);
    if !SomeCall(m, os, a.call, Unknown) {
      assert forall k :: 0 <= k < i ==> CallState(m, os[..i][k], a.call) == CallState(m, ps[..i][k], a.call);
      CountKeeps(m, os[..i], ps[..i], a.call);
    }
  }

  // TOOL RESULTS: what was found stays found, what was excluded stays excluded, `occurrence` and `after` included.
  lemma ResultVerdictKeeps(m: Matchers, os: seq<Observation>, ps: seq<Observation>, a: ResultAssertion)
    requires AllLearn(os, ps)
    ensures Keeps(ResultVerdict(m, os, a), ResultVerdict(m, ps, a))
  {
    hide CallState, ResultState, EarlierState, Candidate, Learns, SomeCall;
    CallsKeep(m, os, ps, a.call);
    forall i | 0 <= i < |os|
      ensures Keeps(ResultState(m, os[i], a), ResultState(m, ps[i], a))
      ensures Keeps(EarlierState(m, os, a.after, os[i]), EarlierState(m, ps, a.after, ps[i]))
      ensures (a.occurrence.Some? ==> !SomeCall(m, os, a.call, Unknown)) && Candidate(m, os, a, i) ==>
                Candidate(m, ps, a, i)
      ensures !SomeCall(m, os, a.call, Unknown) && Candidate(m, ps, a, i) ==> Candidate(m, os, a, i)
    {
      ResultStateKeeps(m, os[i], ps[i], a);
      EarlierKeeps(m, os, ps, a.after, i);
      CandidatesKeep(m, os, ps, a, i);
    }
    if Found(m, os, a) {
      var i :| 0 <= i < |os| && Stands(m, os, a, i) && ResultState(m, os[i], a) == Yes;
      assert Stands(m, ps, a, i) && ResultState(m, ps[i], a) == Yes;
    } else if Excluded(m, os, a) {
      ExclusionKeeps(m, os, ps, a);
    }
  }

  lemma ExclusionKeeps(m: Matchers, os: seq<Observation>, ps: seq<Observation>, a: ResultAssertion)
    requires |os| == |ps| && Excluded(m, os, a)
    requires SomeCall(m, ps, a.call, Unknown) ==> SomeCall(m, os, a.call, Unknown)
    requires forall i :: 0 <= i < |os| ==>
               && Keeps(ResultState(m, os[i], a), ResultState(m, ps[i], a))
               && Keeps(EarlierState(m, os, a.after, os[i]), EarlierState(m, ps, a.after, ps[i]))
               && (Candidate(m, ps, a, i) ==> Candidate(m, os, a, i))
    ensures Excluded(m, ps, a)
  {
    hide CallState, ResultState, EarlierState, Candidate, SomeCall;
    forall i | 0 <= i < |ps| && Candidate(m, ps, a, i)
      ensures !Doubtful(m, ps, a, i) && (Stands(m, ps, a, i) ==> ResultState(m, ps[i], a) == No)
    {
      assert !Doubtful(m, os, a, i);
      if Stands(m, os, a, i) {
        assert ResultState(m, os[i], a) != Yes && ResultState(m, os[i], a) != Unknown;
      }
    }
  }

  // TOOLS AND ACTIONS: the same.
  lemma ExistenceVerdictKeeps(m: Matchers, os: seq<Observation>, ps: seq<Observation>, group: seq<CallAssertion>)
    requires AllLearn(os, ps)
    ensures Keeps(ExistenceVerdict(m, os, group), ExistenceVerdict(m, ps, group))
  {}

  // NO CHECK OF ANY CASE flips between pass and fail when more becomes known.
  lemma ChecksKeep(m: Matchers, os: seq<Observation>, ps: seq<Observation>, c: Case)
    requires AllLearn(os, ps)
    ensures |Checks(m, os, c)| == |Checks(m, ps, c)|
    ensures forall k :: 0 <= k < |Checks(m, os, c)| ==>
              Checks(m, os, c)[k] == NonEvidence || Checks(m, ps, c)[k] == Checks(m, os, c)[k]
  {
    hide ExistenceVerdict, ResultVerdict, AllLearn;
    ToolsKeep(m, os, ps, c.toolsRequired, false);
    ToolsKeep(m, os, ps, c.toolsForbidden, true);
    ActionsKeep(m, os, ps, c.actionsRequired, false);
    ActionsKeep(m, os, ps, c.actionsForbidden, true);
    GroupsKeep(m, os, ps, c.anyOf);
    ResultsKeep(m, os, ps, c.resultsRequired, false);
    ResultsKeep(m, os, ps, c.resultsForbidden, true);
  }

  // THE SAME FOR A TARGET: its checks keep their answers when withheld fields of its observations become known, the
  // checks of its text included.
  lemma TargetChecksKeep(m: Matchers, t: Target, u: Target, c: Case)
    requires t.text == u.text && t.sharedUrls == u.sharedUrls
    requires t.observations.Some? && u.observations.Some? && AllLearn(t.observations.value, u.observations.value)
    ensures |TargetChecks(m, t, c)| == |TargetChecks(m, u, c)|
    ensures forall k :: 0 <= k < |TargetChecks(m, t, c)| ==>
              TargetChecks(m, t, c)[k] == NonEvidence || TargetChecks(m, u, c)[k] == TargetChecks(m, t, c)[k]
  {
    hide Checks, OutputChecks, AllLearn;
    ChecksKeep(m, t.observations.value, u.observations.value, c);
    if c.output.Some? { OutputKeeps(t, u, c); }
  }

  lemma OutputKeeps(t: Target, u: Target, c: Case)
    requires t.text == u.text && t.sharedUrls == u.sharedUrls && c.output.Some?
    ensures OutputChecks(t, c.output.value) == OutputChecks(u, c.output.value)
  {}

  predicate ListKeeps(a: seq<CheckStatus>, b: seq<CheckStatus>) {
    |a| == |b| && forall k :: 0 <= k < |a| ==> a[k] == NonEvidence || b[k] == a[k]
  }

  lemma ToolsKeep(m: Matchers, os: seq<Observation>, ps: seq<Observation>, tools: seq<string>, forbidden: bool)
    requires AllLearn(os, ps)
    ensures ListKeeps(ToolChecks(m, os, tools, forbidden), ToolChecks(m, ps, tools, forbidden))
  {
    hide ExistenceVerdict, AllLearn;
    forall k | 0 <= k < |tools| {
      ExistenceVerdictKeeps(m, os, ps, [CallAssertion(tools[k], None)]);
    }
  }

  lemma ActionsKeep(m: Matchers, os: seq<Observation>, ps: seq<Observation>, calls: seq<CallAssertion>, forbidden: bool)
    requires AllLearn(os, ps)
    ensures ListKeeps(CallChecks(m, os, calls, forbidden), CallChecks(m, ps, calls, forbidden))
  {
    hide ExistenceVerdict, AllLearn;
    forall k | 0 <= k < |calls| {
      ExistenceVerdictKeeps(m, os, ps, [calls[k]]);
    }
  }

  lemma GroupsKeep(m: Matchers, os: seq<Observation>, ps: seq<Observation>, groups: seq<seq<CallAssertion>>)
    requires AllLearn(os, ps)
    ensures ListKeeps(GroupChecks(m, os, groups), GroupChecks(m, ps, groups))
  {
    hide ExistenceVerdict, AllLearn;
    forall k | 0 <= k < |groups| {
      ExistenceVerdictKeeps(m, os, ps, groups[k]);
    }
  }

  lemma ResultsKeep(m: Matchers, os: seq<Observation>, ps: seq<Observation>, results: seq<ResultAssertion>,
                    forbidden: bool)
    requires AllLearn(os, ps)
    ensures ListKeeps(ResultChecks(m, os, results, forbidden), ResultChecks(m, ps, results, forbidden))
  {
    hide ResultVerdict, AllLearn;
    forall k | 0 <= k < |results| {
      ResultVerdictKeeps(m, os, ps, results[k]);
    }
  }

  // ---------- the two-valued meaning ----------

  predicate Calls(m: Matchers, o: Observation, c: CallAssertion) {
    && o.tool.Value? && o.tool.json.Text? && m.normalize(o.tool.json.text) == m.normalize(c.tool)
    && (c.wants.Some? ==> o.input.Value? && o.input.json.Object? && m.args(c.tool, o.input.json, c.wants.value))
  }

  function CallsIn(m: Matchers, os: seq<Observation>, c: CallAssertion): nat {
    if os == [] then 0 else CallsIn(m, os[..|os| - 1], c) + if Calls(m, os[|os| - 1], c) then 1 else 0
  }

  // The status asked for, if any, is one of these.
  predicate Wants(a: ResultAssertion, statuses: set<string>) {
    a.status.None? || a.status.value in statuses
  }

  // A success with a matching result, or an error with a matching error, under a status that names it.
  predicate Returns(m: Matchers, o: Observation, a: ResultAssertion) {
    || (o.outcome == Outcome.Success && Wants(a, {"success", "completed"})
        && o.result.Value? && m.value(o.result.json, a.wants))
    || (o.outcome == Error && Wants(a, {"error"}) && o.error.Value? && m.value(o.error.json, a.wants))
  }

  // The call meant: the k-th matching one if k is given, after such an earlier call if one is asked for.
  predicate Meant(m: Matchers, os: seq<Observation>, a: ResultAssertion, i: nat) {
    && i < |os| && Calls(m, os[i], a.call)
    && (a.occurrence.Some? ==> CallsIn(m, os[..i + 1], a.call) == a.occurrence.value)
    && (a.after.Some? ==> exists j :: 0 <= j < |os| && os[j].start < os[i].start && Calls(m, os[j], a.after.value))
  }

  predicate Holds(m: Matchers, os: seq<Observation>, a: ResultAssertion) {
    exists i :: 0 <= i < |os| && Meant(m, os, a, i) && Returns(m, os[i], a)
  }

  // Nothing an assertion asks about is unknown.
  predicate CallsDecided(m: Matchers, os: seq<Observation>, c: CallAssertion) {
    forall i :: 0 <= i < |os| ==>
      && ToolKnown(os[i])
      && (Calls(m, os[i], CallAssertion(c.tool, None)) && c.wants.Some? ==>
            os[i].input.Value? && os[i].input.json.Object?)
  }

  predicate ToolKnown(o: Observation) { o.tool.Value? && o.tool.json.Text? }

  // The outcome is known, and the result too unless the status asked for already rules it out.
  predicate ResultDecided(o: Observation, a: ResultAssertion) {
    && !o.outcome.Missing?
    && (o.outcome.Success? && Wants(a, {"success", "completed"}) ==> o.result.Value?)
    && (o.outcome.Error? && Wants(a, {"error"}) ==> o.error.Value?)
  }

  // Of the calls that are not meant nothing is asked but that they can be told from the others.
  predicate Decided(m: Matchers, os: seq<Observation>, a: ResultAssertion) {
    && CallsDecided(m, os, a.call) && (a.after.Some? ==> CallsDecided(m, os, a.after.value))
    && forall i :: 0 <= i < |os| && Meant(m, os, a, i) ==> ResultDecided(os[i], a)
  }

  lemma StateIsMeaning(m: Matchers, o: Observation, c: CallAssertion)
    ensures CallState(m, o, c) == Yes <==> Calls(m, o, c)
  {}

  lemma DecidedStates(m: Matchers, os: seq<Observation>, c: CallAssertion)
    requires CallsDecided(m, os, c)
    ensures forall i :: 0 <= i < |os| ==> CallState(m, os[i], c) == if Calls(m, os[i], c) then Yes else No
  {}

  lemma {:induction false} CountIsMeaning(m: Matchers, os: seq<Observation>, c: CallAssertion)
    ensures CallCount(m, os, c) == CallsIn(m, os, c)
  {
    hide CallState, Calls;
    if os != [] {
      CountIsMeaning(m, os[..|os| - 1], c);
      StateIsMeaning(m, os[|os| - 1], c);
    }
  }

  lemma EarlierIsMeaning(m: Matchers, os: seq<Observation>, after: Option<CallAssertion>, i: nat)
    requires i < |os| && (after.Some? ==> CallsDecided(m, os, after.value))
    ensures EarlierState(m, os, after, os[i])
            == if after.Some? ==> exists j :: 0 <= j < |os| && os[j].start < os[i].start && Calls(m, os[j], after.value)
               then Yes else No
  {}

  lemma StandsIsMeant(m: Matchers, os: seq<Observation>, a: ResultAssertion, i: nat)
    requires Decided(m, os, a) && i < |os|
    ensures Stands(m, os, a, i) <==> Meant(m, os, a, i)
    ensures !Doubtful(m, os, a, i)
    ensures Meant(m, os, a, i) ==> ResultState(m, os[i], a) == if Returns(m, os[i], a) then Yes else No
  {
    hide Calls, CallState, CallsDecided, EarlierState;
    CountIsMeaning(m, os[..i], a.call);
    SnocPrefix(os, i);
    StateIsMeaning(m, os[i], a.call);
    EarlierIsMeaning(m, os, a.after, i);
  }

  // Where nothing is unknown the verdict is the meaning.
  lemma DecidedIsMeaning(m: Matchers, os: seq<Observation>, a: ResultAssertion)
    requires Decided(m, os, a)
    ensures ResultVerdict(m, os, a) == if Holds(m, os, a) then Yes else No
  {
    hide Stands, Doubtful, Meant, ResultState, Returns, CallState, CallsDecided;
    DecidedStates(m, os, a.call);
    forall i | 0 <= i < |os|
      ensures Stands(m, os, a, i) <==> Meant(m, os, a, i)
      ensures !Doubtful(m, os, a, i)
      ensures Meant(m, os, a, i) ==> ResultState(m, os[i], a) == if Returns(m, os[i], a) then Yes else No
    {
      StandsIsMeant(m, os, a, i);
    }
    if Holds(m, os, a) {
      var i :| 0 <= i < |os| && Meant(m, os, a, i) && Returns(m, os[i], a);
      assert Stands(m, os, a, i) && ResultState(m, os[i], a) == Yes;
    }
  }

  // A CONCLUSIVE VERDICT over partly unknown observations is the truth about every completion of them.
  lemma ConclusiveResultIsTrue(m: Matchers, os: seq<Observation>, ps: seq<Observation>, a: ResultAssertion)
    requires AllLearn(os, ps) && Decided(m, ps, a) && ResultVerdict(m, os, a) != Unknown
    ensures ResultVerdict(m, os, a) == Yes <==> Holds(m, ps, a)
  {
    hide ResultVerdict, Holds, Decided, AllLearn;
    ResultVerdictKeeps(m, os, ps, a);
    DecidedIsMeaning(m, ps, a);
  }

  lemma ConclusiveExistenceIsTrue(m: Matchers, os: seq<Observation>, ps: seq<Observation>, group: seq<CallAssertion>)
    requires AllLearn(os, ps) && (forall g :: 0 <= g < |group| ==> CallsDecided(m, ps, group[g]))
    requires ExistenceVerdict(m, os, group) != Unknown
    ensures ExistenceVerdict(m, os, group) == Yes
            <==> exists g, i :: 0 <= g < |group| && 0 <= i < |ps| && Calls(m, ps[i], group[g])
  {}

  // ---------- how sharp "non-evidence" is ----------

  function FillTool(o: Observation, tool: string): Observation {
    if o.tool.Withheld? then o.(tool := Value(Text(tool))) else o
  }

  function FillTools(os: seq<Observation>, tool: string): seq<Observation> {
    seq(|os|, i requires 0 <= i < |os| => FillTool(os[i], tool))
  }

  // For the tool families "non-evidence" is exact: one completion passes and another fails.
  lemma ToolVerdictIsExact(m: Matchers, os: seq<Observation>, tool: string, other: string)
    requires m.normalize(other) != m.normalize(tool)
    requires forall i :: 0 <= i < |os| ==> os[i].tool.Value? ==> os[i].tool.json.Text?
    requires ExistenceVerdict(m, os, [CallAssertion(tool, None)]) == Unknown
    ensures AllLearn(os, FillTools(os, tool)) && AllLearn(os, FillTools(os, other))
    ensures ExistenceVerdict(m, FillTools(os, tool), [CallAssertion(tool, None)]) == Yes
    ensures ExistenceVerdict(m, FillTools(os, other), [CallAssertion(tool, None)]) == No
  {
    hide CallState, FillTool, Learns;
    var c := CallAssertion(tool, None);
    var group := [c];
    assert group[0] == c;
    assert SomeCall(m, os, group[0], Unknown) && !SomeCall(m, os, group[0], Yes);
    forall k | 0 <= k < |os|
      ensures Learns(os[k], FillTool(os[k], tool)) && Learns(os[k], FillTool(os[k], other))
      ensures CallState(m, os[k], c) == Unknown ==> CallState(m, FillTool(os[k], tool), c) == Yes
      ensures CallState(m, FillTool(os[k], other), c) == No
    {
      assert CallState(m, os[k], c) != Yes;
      FillOne(m, os[k], tool, other);
    }
    var i :| 0 <= i < |os| && CallState(m, os[i], c) == Unknown;
    assert CallState(m, FillTools(os, tool)[i], c) == Yes;
    assert SomeCall(m, FillTools(os, tool), group[0], Yes);
  }

  lemma FillOne(m: Matchers, o: Observation, tool: string, other: string)
    requires m.normalize(other) != m.normalize(tool) && (o.tool.Value? ==> o.tool.json.Text?)
    requires CallState(m, o, CallAssertion(tool, None)) != Yes
    ensures Learns(o, FillTool(o, tool)) && Learns(o, FillTool(o, other))
    ensures CallState(m, o, CallAssertion(tool, None)) == Unknown
            ==> CallState(m, FillTool(o, tool), CallAssertion(tool, None)) == Yes
    ensures CallState(m, FillTool(o, other), CallAssertion(tool, None)) == No
  {}

  // For tool results it is only cautious: here no completion at all can satisfy the assertion, because the one
  // call ended in an error and a completed call is asked for, and still the verdict is "non-evidence".
  lemma ResultVerdictIsCautious(m: Matchers, o: Observation, ps: seq<Observation>, tool: string, wants: Json)
    requires o.tool.Withheld? && o.outcome.Error?
    requires AllLearn([o], ps)
    ensures var a := ResultAssertion(CallAssertion(tool, None), None, None, Some("completed"), wants);
            ResultVerdict(m, [o], a) == Unknown && !Holds(m, ps, a)
  {
    var a := ResultAssertion(CallAssertion(tool, None), None, None, Some("completed"), wants);
    assert |"completed"| == 9 && |"error"| == 5;
    assert CallState(m, [o][0], a.call) == Unknown;
    assert SomeCall(m, [o], a.call, Unknown);
    assert Learns([o][0], ps[0]);
  }
}
