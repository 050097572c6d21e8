// What every check of a case says about the observations and the text, position by position.

module CheckMeaning {
  import opened Wrappers
  import opened Sequences
  import opened Evidence
  import opened Assertions
  import opened AssertionLaws
  import opened AssertionSharpness

  // What a required thing's check says: where enough is known it passes exactly if the thing is there and fails
  // otherwise, and it never passes or fails wrongly.
  predicate RequiredSays(s: CheckStatus, known: bool, there: bool) {
    && (known ==> s == if there then Pass else Fail)
    && (s == Pass ==> there) && (s == Fail ==> !there)
  }

  predicate ForbiddenSays(s: CheckStatus, known: bool, there: bool) {
    && (known ==> s == if there then Fail else Pass)
    && (s == Fail ==> there) && (s == Pass ==> !there)
  }

  // Every call of a group can be told from the others.
  predicate GroupDecided(m: Matchers, os: seq<Observation>, group: seq<CallAssertion>) {
    forall g :: 0 <= g < |group| ==> CallsDecided(m, os, group[g])
  }

  predicate SomeObservationCalls(m: Matchers, ps: seq<Observation>, c: CallAssertion) {
    exists i :: 0 <= i < |ps| && Calls(m, ps[i], c)
  }

  lemma ExistenceSays(m: Matchers, os: seq<Observation>, ps: seq<Observation>, group: seq<CallAssertion>)
    requires AllLearn(os, ps)
    ensures var v := ExistenceVerdict(m, os, group);
            && RequiredSays(Judge(v, false), GroupDecided(m, os, group), Occurs(m, ps, group))
            && ForbiddenSays(Judge(v, true), GroupDecided(m, os, group), Occurs(m, ps, group))
  {
    hide ExistenceVerdict, Occurs, AllLearn, CallsDecided, GroupDecided;
    ConclusiveExistence(m, os, ps, group);
    if GroupDecided(m, os, group) { DecidedExistence(m, os, group); }
  }

  lemma DecidedExistence(m: Matchers, os: seq<Observation>, group: seq<CallAssertion>)
    requires GroupDecided(m, os, group)
    ensures ExistenceVerdict(m, os, group) != Unknown
  {
    hide CallState, Calls, CallsDecided;
    forall g | 0 <= g < |group| ensures !SomeCall(m, os, group[g], Unknown) {
      assert CallsDecided(m, os, group[g]);
      DecidedStates(m, os, group[g]);
    }
  }

  lemma OneCallOccurs(m: Matchers, os: seq<Observation>, c: CallAssertion)
    ensures Occurs(m, os, [c]) <==> SomeObservationCalls(m, os, c)
    ensures GroupDecided(m, os, [c]) <==> CallsDecided(m, os, c)
  {
    hide Calls, CallsDecided;
    assert [c][0] == c;
    if i :| 0 <= i < |os| && Calls(m, os[i], c) { assert Calls(m, os[i], [c][0]); }
    if GroupDecided(m, os, [c]) { assert CallsDecided(m, os, [c][0]); }
  }

  lemma CallSays(m: Matchers, os: seq<Observation>, ps: seq<Observation>, c: CallAssertion)
    requires AllLearn(os, ps)
    ensures var v := ExistenceVerdict(m, os, [c]);
            && RequiredSays(Judge(v, false), CallsDecided(m, os, c), SomeObservationCalls(m, ps, c))
            && ForbiddenSays(Judge(v, true), CallsDecided(m, os, c), SomeObservationCalls(m, ps, c))
  {
    hide ExistenceVerdict, Occurs, AllLearn, CallsDecided, GroupDecided, SomeObservationCalls, Judge, RequiredSays,
      ForbiddenSays;
    ExistenceSays(m, os, ps, [c]);
    OneCallOccurs(m, os, c);
    OneCallOccurs(m, ps, c);
  }

  lemma ResultSays(m: Matchers, os: seq<Observation>, ps: seq<Observation>, a: ResultAssertion)
    requires AllLearn(os, ps)
    ensures var v := ResultVerdict(m, os, a);
            && RequiredSays(Judge(v, false), Decided(m, os, a), Holds(m, ps, a))
            && ForbiddenSays(Judge(v, true), Decided(m, os, a), Holds(m, ps, a))
  {
    hide ResultVerdict, Holds, AllLearn, Decided;
    ConclusiveIsTrue(m, os, ps, a);
    if Decided(m, os, a) { DecidedIsMeaning(m, os, a); }
  }

  // THE CHECKS OF A CASE over runtime observations, family by family in order: what each says of these observations
  // and of everything that may still become known of them.
  lemma FamiliesSay(m: Matchers, os: seq<Observation>, ps: seq<Observation>, c: Case)
    returns (tools: seq<CheckStatus>, noTools: seq<CheckStatus>, actions: seq<CheckStatus>, noActions: seq<CheckStatus>,
             groups: seq<CheckStatus>, results: seq<CheckStatus>, noResults: seq<CheckStatus>)
    requires AllLearn(os, ps)
    ensures Checks(m, os, c) == tools + noTools + actions + noActions + groups + results + noResults
    ensures |tools| == |c.toolsRequired| && |noTools| == |c.toolsForbidden|
    ensures |actions| == |c.actionsRequired| && |noActions| == |c.actionsForbidden| && |groups| == |c.anyOf|
    ensures |results| == |c.resultsRequired| && |noResults| == |c.resultsForbidden|
    ensures forall k :: 0 <= k < |tools| ==>
              var call := CallAssertion(c.toolsRequired[k], None);
              RequiredSays(tools[k], CallsDecided(m, os, call), SomeObservationCalls(m, ps, call))
    ensures forall k :: 0 <= k < |noTools| ==>
              var call := CallAssertion(c.toolsForbidden[k], None);
              ForbiddenSays(noTools[k], CallsDecided(m, os, call), SomeObservationCalls(m, ps, call))
    ensures forall k :: 0 <= k < |actions| ==>
              var call := c.actionsRequired[k];
              RequiredSays(actions[k], CallsDecided(m, os, call), SomeObservationCalls(m, ps, call))
    ensures forall k :: 0 <= k < |noActions| ==>
              var call := c.actionsForbidden[k];
              ForbiddenSays(noActions[k], CallsDecided(m, os, call), SomeObservationCalls(m, ps, call))
    ensures forall k :: 0 <= k < |groups| ==>
              RequiredSays(groups[k], GroupDecided(m, os, c.anyOf[k]), Occurs(m, ps, c.anyOf[k]))
    ensures forall k :: 0 <= k < |results| ==>
              var a := c.resultsRequired[k];
              RequiredSays(results[k], Decided(m, os, a), Holds(m, ps, a))
    ensures forall k :: 0 <= k < |noResults| ==>
              var a := c.resultsForbidden[k];
              ForbiddenSays(noResults[k], Decided(m, os, a), Holds(m, ps, a))
  {
    hide ExistenceVerdict, ResultVerdict, Occurs, Holds, AllLearn, CallsDecided, GroupDecided, SomeObservationCalls,
      Judge, RequiredSays, ForbiddenSays, Decided;
    tools, noTools := ToolChecks(m, os, c.toolsRequired, false), ToolChecks(m, os, c.toolsForbidden, true);
    actions, noActions := CallChecks(m, os, c.actionsRequired, false), CallChecks(m, os, c.actionsForbidden, true);
    groups := GroupChecks(m, os, c.anyOf);
    results, noResults := ResultChecks(m, os, c.resultsRequired, false), ResultChecks(m, os, c.resultsForbidden, true);
    forall k | 0 <= k < |tools| { CallSays(m, os, ps, CallAssertion(c.toolsRequired[k], None)); }
    forall k | 0 <= k < |noTools| { CallSays(m, os, ps, CallAssertion(c.toolsForbidden[k], None)); }
    forall k | 0 <= k < |actions| { CallSays(m, os, ps, c.actionsRequired[k]); }
    forall k | 0 <= k < |noActions| { CallSays(m, os, ps, c.actionsForbidden[k]); }
    forall k | 0 <= k < |groups| { ExistenceSays(m, os, ps, c.anyOf[k]); }
    forall k | 0 <= k < |results| { ResultSays(m, os, ps, c.resultsRequired[k]); }
    forall k | 0 <= k < |noResults| { ResultSays(m, os, ps, c.resultsForbidden[k]); }
  }

  // THE CHECKS OF A TEXT: a part asked for is there, a part forbidden is not, and enough links are shared.
  lemma TextSays(t: Target, output: OutputCase)
    requires t.text.Some?
    ensures var text := OutputChecks(t, output);
            var n, k := |output.contains|, |output.forbids|;
            && |text| == n + k + (if output.minUrls.Some? then 1 else 0)
            && (forall i :: 0 <= i < n ==>
                  text[i] == if Contains(t.text.value, output.contains[i]) then Pass else Fail)
            && (forall i :: 0 <= i < k ==>
                  text[n + i] == if Contains(t.text.value, output.forbids[i]) then Fail else Pass)
            && (output.minUrls.Some? ==>
                  text[n + k] == if t.sharedUrls >= output.minUrls.value then Pass else Fail)
  {
    hide Contains;
    var there := seq(|output.contains|, i requires 0 <= i < |output.contains| =>
      Told(Contains(t.text.value, output.contains[i])));
    var absent := seq(|output.forbids|, i requires 0 <= i < |output.forbids| =>
      Told(!Contains(t.text.value, output.forbids[i])));
    var urls := if output.minUrls.Some? then [Told(t.sharedUrls >= output.minUrls.value)] else [];
    assert OutputChecks(t, output) == there + absent + urls;
    forall i | 0 <= i < |absent| ensures (there + absent + urls)[|there| + i] == absent[i] {}
  }

  // THE CHECKS OF A TARGET: those of its observations, then those of its text; without what they ask about they are
  // no evidence.
  lemma TargetSays(m: Matchers, t: Target, c: Case)
    ensures c.families && t.observations.None? ==> TargetChecks(m, t, c) == [NonEvidence]
    ensures !c.families || t.observations.Some? ==>
              TargetChecks(m, t, c)
              == Checks(m, if c.families then t.observations.value else [], c)
                 + if c.output.Some? then OutputChecks(t, c.output.value) else []
    ensures c.output.Some? && t.text.None? ==> OutputChecks(t, c.output.value) == [NonEvidence]
  {
    hide Checks;
  }
}
