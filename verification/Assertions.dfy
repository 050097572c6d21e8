// The deterministic assertions over runtime observations (runner/eval_assertions.py): three-valued states,
// the verdicts drawn from them, and the loops that draw them.

module Assertions {
  import opened Wrappers
  import opened Sequences
  import opened Json
  import opened Evidence

  datatype Tri = Yes | No | Unknown

  datatype CheckStatus = Pass | Fail | NonEvidence

  // The deterministic helpers the verdicts do not depend on: tool-name normalisation, the argument test of a
  // call (tool, input, expectation) and the test of a result value (value, expectation).
  datatype Matchers = Matchers(
    normalize: string -> string, args: (string, Json, Json) -> bool, value: (Json, Json) -> bool)

  // A tool, and what is asked of its arguments, if anything.
  datatype CallAssertion = CallAssertion(tool: string, wants: Option<Json>)

  datatype ResultAssertion = ResultAssertion(
    call: CallAssertion, occurrence: Option<nat>, after: Option<CallAssertion>, status: Option<string>, wants: Json)

  // ---------- one observation ----------

  // `_tool_state`
  function ToolState(m: Matchers, o: Observation, tool: string): Tri {
    match o.tool
    case Value(Text(text)) => if m.normalize(text) == m.normalize(tool) then Yes else No
    case _ => Unknown
  }

  // `_call_state`
  function CallState(m: Matchers, o: Observation, c: CallAssertion): Tri {
    if ToolState(m, o, c.tool) != Yes || c.wants.None? then ToolState(m, o, c.tool)
    else
      match o.input
      case Value(Object(members)) => if m.args(c.tool, Object(members), c.wants.value) then Yes else No
      case _ => Unknown
  }

  function Final(o: Observation): Field {
    if o.outcome.Success? then o.result else o.error
  }

  // The statuses an assertion may ask for, by outcome.
  predicate StatusFits(outcome: Outcome, status: Option<string>) {
    match outcome
    case Success => status.None? || status.value == "success" || status.value == "completed"
    case Error => status.None? || status.value == "error"
    case Missing => false
  }

  // What one candidate says about the result.
  function ResultState(m: Matchers, o: Observation, a: ResultAssertion): Tri {
    if o.outcome.Missing? then Unknown
    else if !StatusFits(o.outcome, a.status) then No
    else if Final(o).Withheld? then Unknown
    else if m.value(Final(o).json, a.wants) then Yes
    else No
  }

  // ---------- the verdicts ----------

  predicate SomeCall(m: Matchers, os: seq<Observation>, c: CallAssertion, t: Tri) {
    exists i :: 0 <= i < |os| && CallState(m, os[i], c) == t
  }

  // `_before`
  predicate Before(candidate: Observation, earlier: Observation) {
    earlier.start < candidate.start
  }

  predicate SomeEarlier(m: Matchers, os: seq<Observation>, c: CallAssertion, o: Observation, t: Tri) {
    exists j :: 0 <= j < |os| && Before(o, os[j]) && CallState(m, os[j], c) == t
  }

  // Was there such a call earlier?
  function EarlierState(m: Matchers, os: seq<Observation>, after: Option<CallAssertion>, o: Observation): Tri {
    if after.None? || SomeEarlier(m, os, after.value, o, Yes) then Yes
    else if SomeEarlier(m, os, after.value, o, Unknown) then Unknown
    else No
  }

  function CallCount(m: Matchers, os: seq<Observation>, c: CallAssertion): nat {
    if os == [] then 0
    else CallCount(m, os[..|os| - 1], c) + if CallState(m, os[|os| - 1], c) == Yes then 1 else 0
  }

  // A matching call, and the one asked for when an occurrence is given.
  predicate Candidate(m: Matchers, os: seq<Observation>, a: ResultAssertion, i: nat) {
    i < |os| && CallState(m, os[i], a.call) == Yes
    && (a.occurrence.Some? ==> CallCount(m, os[..i], a.call) + 1 == a.occurrence.value)
  }

  // A candidate that stands under `after`, or cannot be told.
  predicate Stands(m: Matchers, os: seq<Observation>, a: ResultAssertion, i: nat) {
    Candidate(m, os, a, i) && EarlierState(m, os, a.after, os[i]) == Yes
  }

  predicate Doubtful(m: Matchers, os: seq<Observation>, a: ResultAssertion, i: nat) {
    Candidate(m, os, a, i) && EarlierState(m, os, a.after, os[i]) == Unknown
  }

  predicate SomeStanding(m: Matchers, os: seq<Observation>, a: ResultAssertion, t: Tri) {
    exists i :: 0 <= i < |os| && Stands(m, os, a, i) && ResultState(m, os[i], a) == t
  }

  predicate SomeDoubt(m: Matchers, os: seq<Observation>, a: ResultAssertion) {
    SomeCall(m, os, a.call, Unknown) || exists i :: 0 <= i < |os| && Doubtful(m, os, a, i)
  }

  predicate Found(m: Matchers, os: seq<Observation>, a: ResultAssertion) {
    (a.occurrence.Some? ==> !SomeCall(m, os, a.call, Unknown)) && SomeStanding(m, os, a, Yes)
  }

  predicate Excluded(m: Matchers, os: seq<Observation>, a: ResultAssertion) {
    !SomeDoubt(m, os, a) && !SomeStanding(m, os, a, Yes) && !SomeStanding(m, os, a, Unknown)
  }

  function ResultVerdict(m: Matchers, os: seq<Observation>, a: ResultAssertion): Tri {
    if Found(m, os, a) then Yes else if Excluded(m, os, a) then No else Unknown
  }

  // Does one of the calls occur?
  function ExistenceVerdict(m: Matchers, os: seq<Observation>, group: seq<CallAssertion>): Tri {
    if exists g :: 0 <= g < |group| && SomeCall(m, os, group[g], Yes) then Yes
    else if exists g :: 0 <= g < |group| && SomeCall(m, os, group[g], Unknown) then Unknown
    else No
  }

  function Judge(t: Tri, forbidden: bool): CheckStatus {
    match t
    case Yes => if forbidden then Fail else Pass
    case No => if forbidden then Pass else Fail
    case Unknown => NonEvidence
  }

  // ---------- a case ----------

  // What is asked of the final text: literal parts that must and must not be there, and a number of links shared
  // with the prompt.
  datatype OutputCase = OutputCase(contains: seq<string>, forbids: seq<string>, minUrls: Option<int>)

  // `families` says that the case asks about runtime observations at all.
  datatype Case = Case(
    families: bool, output: Option<OutputCase>, toolsRequired: seq<string>, toolsForbidden: seq<string>,
    actionsRequired: seq<CallAssertion>, actionsForbidden: seq<CallAssertion>, anyOf: seq<seq<CallAssertion>>,
    resultsRequired: seq<ResultAssertion>, resultsForbidden: seq<ResultAssertion>)

  function ToolChecks(m: Matchers, os: seq<Observation>, tools: seq<string>, forbidden: bool): seq<CheckStatus> {
    seq(|tools|, i requires 0 <= i < |tools| =>
      Judge(ExistenceVerdict(m, os, [CallAssertion(tools[i], None)]), forbidden))
  }

  function CallChecks(m: Matchers, os: seq<Observation>, calls: seq<CallAssertion>, forbidden: bool): seq<CheckStatus> {
    seq(|calls|, i requires 0 <= i < |calls| => Judge(ExistenceVerdict(m, os, [calls[i]]), forbidden))
  }

  function GroupChecks(m: Matchers, os: seq<Observation>, groups: seq<seq<CallAssertion>>): seq<CheckStatus> {
    seq(|groups|, i requires 0 <= i < |groups| => Judge(ExistenceVerdict(m, os, groups[i]), false))
  }

  function ResultChecks(m: Matchers, os: seq<Observation>, results: seq<ResultAssertion>, forbidden: bool):
    seq<CheckStatus>
  {
    seq(|results|, i requires 0 <= i < |results| => Judge(ResultVerdict(m, os, results[i]), forbidden))
  }

  function Checks(m: Matchers, os: seq<Observation>, c: Case): seq<CheckStatus> {
    ToolChecks(m, os, c.toolsRequired, false) + ToolChecks(m, os, c.toolsForbidden, true)
    + CallChecks(m, os, c.actionsRequired, false) + CallChecks(m, os, c.actionsForbidden, true)
    + GroupChecks(m, os, c.anyOf)
    + ResultChecks(m, os, c.resultsRequired, false) + ResultChecks(m, os, c.resultsForbidden, true)
  }

  // ---------- a target ----------

  // What the final attempt left: its observations and its text, if there are any, and the number of links the text
  // shares with the prompt.
  datatype Target = Target(observations: Option<seq<Observation>>, text: Option<string>, sharedUrls: nat)

  function Told(holds: bool): CheckStatus { if holds then Pass else Fail }

  function OutputChecks(t: Target, output: OutputCase): seq<CheckStatus> {
    if t.text.None? then [NonEvidence]
    else
      seq(|output.contains|, i requires 0 <= i < |output.contains| => Told(Contains(t.text.value, output.contains[i])))
      + seq(|output.forbids|, i requires 0 <= i < |output.forbids| => Told(!Contains(t.text.value, output.forbids[i])))
      + if output.minUrls.Some? then [Told(t.sharedUrls >= output.minUrls.value)] else []
  }

  // Without the observations a case asks about there is a single check, and it is no evidence.
  function TargetChecks(m: Matchers, t: Target, c: Case): seq<CheckStatus> {
    if c.families && t.observations.None? then [NonEvidence]
    else
      Checks(m, if c.families then t.observations.value else [], c)
      + if c.output.Some? then OutputChecks(t, c.output.value) else []
  }
}

// The loops.
module AssertionLoops {
  import opened Wrappers
  import opened Sequences
  import opened Evidence
  import opened Assertions

  // `_existence` and `_any_of`: the states of every call on every observation.
  method Existence(m: Matchers, os: seq<Observation>, group: seq<CallAssertion>) returns (r: Tri)
    ensures r == ExistenceVerdict(m, os, group)
  {
    var matched, unknown := false, false;
    for g := 0 to |group|
      invariant matched <==> exists k :: 0 <= k < g && SomeCall(m, os, group[k], Yes)
      invariant unknown <==> exists k :: 0 <= k < g && SomeCall(m, os, group[k], Unknown)
    {
      var yes, open := States(m, os, group[g]);
      matched := matched || yes;
      unknown := unknown || open;
    }
    return if matched then Yes else if unknown then Unknown else No;
  }

  method States(m: Matchers, os: seq<Observation>, c: CallAssertion) returns (matched: bool, unknown: bool)
    ensures matched <==> SomeCall(m, os, c, Yes)
    ensures unknown <==> SomeCall(m, os, c, Unknown)
  {
    matched, unknown := false, false;
    for i := 0 to |os|
      invariant matched <==> exists k :: 0 <= k < i && CallState(m, os[k], c) == Yes
      invariant unknown <==> exists k :: 0 <= k < i && CallState(m, os[k], c) == Unknown
    {
      var state := CallState(m, os[i], c);
      matched := matched || state == Yes;
      unknown := unknown || state == Unknown;
    }
  }

  // The positions of the candidates, in order.
  ghost predicate Positions(m: Matchers, os: seq<Observation>, c: CallAssertion, at: seq<nat>) {
    && |at| == CallCount(m, os, c)
    && (forall k :: 0 <= k < |at| ==>
          at[k] < |os| && CallState(m, os[at[k]], c) == Yes && CallCount(m, os[..at[k]], c) == k)
    && (forall i :: 0 <= i < |os| && CallState(m, os[i], c) == Yes ==>
          CallCount(m, os[..i], c) < |at| && at[CallCount(m, os[..i], c)] == i)
  }

  lemma CountSnoc(m: Matchers, os: seq<Observation>, o: Observation, c: CallAssertion)
    ensures CallCount(m, os + [o], c) == CallCount(m, os, c) + if CallState(m, o, c) == Yes then 1 else 0
  {
    hide CallState;
    assert (os + [o])[..|os|] == os;
  }

  lemma PositionsSnoc(m: Matchers, os: seq<Observation>, o: Observation, c: CallAssertion, at: seq<nat>)
    requires Positions(m, os, c, at)
    ensures Positions(m, os + [o], c, if CallState(m, o, c) == Yes then at + [|os|] else at)
  {
    hide CallState, CallCount;
    var all := os + [o];
    var next := if CallState(m, o, c) == Yes then at + [|os|] else at;
    CountSnoc(m, os, o, c);
    assert all[..|os|] == os && all[|os|] == o;
    forall k | 0 <= k < |next|
      ensures next[k] < |all| && CallState(m, all[next[k]], c) == Yes && CallCount(m, all[..next[k]], c) == k
    {
      if k < |at| { assert all[..at[k]] == os[..at[k]]; }
    }
    forall i | 0 <= i < |all| && CallState(m, all[i], c) == Yes
      ensures CallCount(m, all[..i], c) < |next| && next[CallCount(m, all[..i], c)] == i
    {
      if i < |os| { assert all[..i] == os[..i]; }
    }
  }

  lemma NoPositions(m: Matchers, c: CallAssertion)
    ensures Positions(m, [], c, [])
  {}

  // The first loop: the matching calls, and whether some call could not be told.
  method Matching(m: Matchers, os: seq<Observation>, c: CallAssertion)
    returns (matching: seq<Observation>, unknown: bool, ghost at: seq<nat>)
    ensures unknown <==> SomeCall(m, os, c, Unknown)
    ensures Positions(m, os, c, at) && |matching| == |at|
    ensures forall k :: 0 <= k < |at| ==> at[k] < |os| && matching[k] == os[at[k]]
  {
    hide CallState, Positions;
    matching, unknown, at := [], false, [];
    NoPositions(m, c);
    for i := 0 to |os|
      invariant unknown <==> exists k :: 0 <= k < i && CallState(m, os[k], c) == Unknown
      invariant Positions(m, os[..i], c, at) && |matching| == |at|
      invariant forall k :: 0 <= k < |at| ==> at[k] < |os| && matching[k] == os[at[k]]
    {
      SnocPrefix(os, i);
      PositionsSnoc(m, os[..i], os[i], c, at);
      var state := CallState(m, os[i], c);
      if state == Yes {
        matching := matching + [os[i]];
        at := at + [i];
      } else if state == Unknown {
        unknown := true;
      }
    }
    assert os[..|os|] == os;
  }

  // One pass over the earlier calls of a candidate.
  method Earlier(m: Matchers, os: seq<Observation>, after: CallAssertion, candidate: Observation) returns (r: Tri)
    ensures r == EarlierState(m, os, Some(after), candidate)
  {
    hide CallState;
    var matched, unknown := false, false;
    for j := 0 to |os|
      invariant matched <==> exists k :: 0 <= k < j && Before(candidate, os[k]) && CallState(m, os[k], after) == Yes
      invariant unknown <==> exists k :: 0 <= k < j && Before(candidate, os[k]) && CallState(m, os[k], after) == Unknown
    {
      if Before(candidate, os[j]) {
        var state := CallState(m, os[j], after);
        matched := matched || state == Yes;
        unknown := unknown || state == Unknown;
      }
    }
    return if matched then Yes else if unknown then Unknown else No;
  }

  // What the last loop reads: the selected candidates at these positions.
  ghost predicate Selected(m: Matchers, os: seq<Observation>, a: ResultAssertion, matching: seq<Observation>,
                           at: seq<nat>)
  {
    && |matching| == |at|
    && (forall k :: 0 <= k < |at| ==> at[k] < |os| && matching[k] == os[at[k]] && Stands(m, os, a, at[k]))
    && (forall i :: 0 <= i < |os| && Stands(m, os, a, i) ==> i in at)
  }

  // `_result_match`
  method ResultMatch(m: Matchers, os: seq<Observation>, a: ResultAssertion) returns (r: Tri)
    requires a.occurrence.Some? ==> a.occurrence.value >= 1
    ensures r == ResultVerdict(m, os, a)
  {
    hide CallState, ResultState, EarlierState, SomeStanding, SomeCall;
    var matching, unknown, at := Matching(m, os, a.call);
    if a.occurrence.Some? {
      if unknown {
        return Unknown;
      }
      if |matching| >= a.occurrence.value {
        matching, at := [matching[a.occurrence.value - 1]], [at[a.occurrence.value - 1]];
      } else {
        matching, at := [], [];
      }
    }
    assert forall i :: 0 <= i < |os| ==> (Candidate(m, os, a, i) <==> i in at);
    if a.after.Some? {
      matching, unknown, at := SelectAfter(m, os, a, matching, at, unknown);
    } else {
      EveryCandidateStands(m, os, a);
    }
    r := LastLoop(m, os, a, matching, at, unknown);
  }

  lemma EveryCandidateStands(m: Matchers, os: seq<Observation>, a: ResultAssertion)
    requires a.after.None?
    ensures forall i :: 0 <= i < |os| ==> EarlierState(m, os, a.after, os[i]) == Yes
  {}

  // The second loop: candidates with such a call earlier.
  method SelectAfter(m: Matchers, os: seq<Observation>, a: ResultAssertion, matching: seq<Observation>,
                     ghost at: seq<nat>, unknown: bool)
    returns (selected: seq<Observation>, told: bool, ghost places: seq<nat>)
    requires a.after.Some? && |matching| == |at|
    requires forall k :: 0 <= k < |at| ==> at[k] < |os| && matching[k] == os[at[k]]
    requires forall i :: 0 <= i < |os| ==> (Candidate(m, os, a, i) <==> i in at)
    ensures Selected(m, os, a, selected, places)
    ensures told <==> unknown || exists i :: 0 <= i < |os| && Doubtful(m, os, a, i)
  {
    hide CallState, EarlierState, Candidate;
    selected, told, places := [], unknown, [];
    for k := 0 to |matching|
      invariant |selected| == |places|
      invariant forall j :: 0 <= j < |places| ==>
                  places[j] < |os| && selected[j] == os[places[j]] && Stands(m, os, a, places[j])
      invariant forall j :: 0 <= j < k && Stands(m, os, a, at[j]) ==> at[j] in places
      invariant told <==> unknown || exists j :: 0 <= j < k && Doubtful(m, os, a, at[j])
    {
      assert at[k] in at;
      var state := Earlier(m, os, a.after.value, matching[k]);
      if state == Yes {
        selected, places := selected + [matching[k]], places + [at[k]];
      } else if state == Unknown {
        told := true;
      }
    }
  }

  // The last loop: the results of the selected candidates.
  method LastLoop(m: Matchers, os: seq<Observation>, a: ResultAssertion, matching: seq<Observation>,
                  ghost at: seq<nat>, told: bool)
    returns (r: Tri)
    requires Selected(m, os, a, matching, at)
    ensures r == Yes <==> SomeStanding(m, os, a, Yes)
    ensures r == No <==> !told && !SomeStanding(m, os, a, Yes) && !SomeStanding(m, os, a, Unknown)
  {
    hide CallState, Stands;
    var unknown := told;
    for k := 0 to |matching|
      invariant forall j :: 0 <= j < k ==> ResultState(m, matching[j], a) != Yes
      invariant unknown <==> told || exists j :: 0 <= j < k && ResultState(m, matching[j], a) == Unknown
    {
      var o := matching[k];
      if o.outcome.Missing? {
        unknown := true;
        assert ResultState(m, matching[k], a) == Unknown;
        continue;
      }
      if !StatusFits(o.outcome, a.status) {
        continue;
      }
      var final := if o.outcome.Success? then o.result else o.error;
      if final.Withheld? {
        unknown := true;
        assert ResultState(m, matching[k], a) == Unknown;
        continue;
      }
      if m.value(final.json, a.wants) {
        return Yes;
      }
    }
    forall i | 0 <= i < |os| && Stands(m, os, a, i) ensures os[i] in matching {
      ghost var k :| 0 <= k < |at| && at[k] == i;
      assert matching[k] == os[i];
    }
    return if unknown then Unknown else No;
  }

  // `deterministic_checks`: the runtime families, in order, and the text.
  method DeterministicChecks(m: Matchers, t: Target, c: Case) returns (checks: seq<CheckStatus>)
    requires forall i :: 0 <= i < |c.resultsRequired| && c.resultsRequired[i].occurrence.Some? ==>
               c.resultsRequired[i].occurrence.value >= 1
    requires forall i :: 0 <= i < |c.resultsForbidden| && c.resultsForbidden[i].occurrence.Some? ==>
               c.resultsForbidden[i].occurrence.value >= 1
    ensures checks == TargetChecks(m, t, c)
  {
    hide ExistenceVerdict, ResultVerdict, Contains;
    if c.families && t.observations.None? {
      return [NonEvidence];
    }
    var os := if c.families then t.observations.value else [];
    var toolsRequired := CheckTools(m, os, c.toolsRequired, false);
    var toolsForbidden := CheckTools(m, os, c.toolsForbidden, true);
    var actionsRequired := CheckCalls(m, os, c.actionsRequired, false);
    var actionsForbidden := CheckCalls(m, os, c.actionsForbidden, true);
    var groups := CheckGroups(m, os, c.anyOf);
    var resultsRequired := CheckResults(m, os, c.resultsRequired, false);
    var resultsForbidden := CheckResults(m, os, c.resultsForbidden, true);
    checks := toolsRequired + toolsForbidden + actionsRequired + actionsForbidden + groups + resultsRequired
              + resultsForbidden;
    if c.output.Some? {
      var output := CheckOutput(t, c.output.value);
      checks := checks + output;
    }
  }

  method CheckOutput(t: Target, output: OutputCase) returns (checks: seq<CheckStatus>)
    ensures checks == OutputChecks(t, output)
  {
    hide Contains;
    if t.text.None? {
      return [NonEvidence];
    }
    var text, there, absent := t.text.value, [], [];
    for i := 0 to |output.contains|
      invariant |there| == i
      invariant forall k :: 0 <= k < i ==> there[k] == Told(Contains(text, output.contains[k]))
    {
      there := there + [Told(Contains(text, output.contains[i]))];
    }
    for i := 0 to |output.forbids|
      invariant |absent| == i
      invariant forall k :: 0 <= k < i ==> absent[k] == Told(!Contains(text, output.forbids[k]))
    {
      absent := absent + [Told(!Contains(text, output.forbids[i]))];
    }
    checks := there + absent;
    if output.minUrls.Some? {
      checks := checks + [Told(t.sharedUrls >= output.minUrls.value)];
    }
  }

  method CheckTools(m: Matchers, os: seq<Observation>, tools: seq<string>, forbidden: bool)
    returns (checks: seq<CheckStatus>)
    ensures checks == ToolChecks(m, os, tools, forbidden)
  {
    hide ExistenceVerdict;
    checks := [];
    for i := 0 to |tools|
      invariant |checks| == i
      invariant forall k :: 0 <= k < i ==>
                  checks[k] == Judge(ExistenceVerdict(m, os, [CallAssertion(tools[k], None)]), forbidden)
    {
      var state := Existence(m, os, [CallAssertion(tools[i], None)]);
      checks := checks + [Judge(state, forbidden)];
    }
  }

  method CheckCalls(m: Matchers, os: seq<Observation>, calls: seq<CallAssertion>, forbidden: bool)
    returns (checks: seq<CheckStatus>)
    ensures checks == CallChecks(m, os, calls, forbidden)
  {
    hide ExistenceVerdict;
    checks := [];
    for i := 0 to |calls|
      invariant |checks| == i
      invariant forall k :: 0 <= k < i ==> checks[k] == Judge(ExistenceVerdict(m, os, [calls[k]]), forbidden)
    {
      var state := Existence(m, os, [calls[i]]);
      checks := checks + [Judge(state, forbidden)];
    }
  }

  method CheckGroups(m: Matchers, os: seq<Observation>, groups: seq<seq<CallAssertion>>)
    returns (checks: seq<CheckStatus>)
    ensures checks == GroupChecks(m, os, groups)
  {
    hide ExistenceVerdict;
    checks := [];
    for i := 0 to |groups|
      invariant |checks| == i
      invariant forall k :: 0 <= k < i ==> checks[k] == Judge(ExistenceVerdict(m, os, groups[k]), false)
    {
      var state := Existence(m, os, groups[i]);
      checks := checks + [Judge(state, false)];
    }
  }

  method CheckResults(m: Matchers, os: seq<Observation>, results: seq<ResultAssertion>, forbidden: bool)
    returns (checks: seq<CheckStatus>)
    requires forall i :: 0 <= i < |results| && results[i].occurrence.Some? ==> results[i].occurrence.value >= 1
    ensures checks == ResultChecks(m, os, results, forbidden)
  {
    hide ResultVerdict;
    checks := [];
    for i := 0 to |results|
      invariant |checks| == i
      invariant forall k :: 0 <= k < i ==> checks[k] == Judge(ResultVerdict(m, os, results[k]), forbidden)
    {
      var state := ResultMatch(m, os, results[i]);
      checks := checks + [Judge(state, forbidden)];
    }
  }
}
