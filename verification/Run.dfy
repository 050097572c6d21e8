// Planning and running (runner/eval_plan.py, runner/eval_cli.py:411-618, 780-862) and the output loader's recount
// (runner/eval_output.py:483-588).

module Plan {
  import opened Wrappers
  import opened Sequences

  datatype Lane = Standard | Runtime | OtherLane(text: string)

  datatype Case = Case(id: string, selectors: seq<string>, lane: Lane)

  datatype Job = Job(case_: Case, iteration: nat)

  type Key = (string, nat)

  function KeyOf(j: Job): Key { (j.case_.id, j.iteration) }

  datatype PlanError =
    | BadCase | EmptySelection | BadSelector | UnknownSelector | BadIterations | BadLane | BadParallelism

  datatype RunPlan = RunPlan(jobs: seq<Job>, standardParallelism: nat, runtimeParallelism: nat)

  predicate DistinctIds(cases: seq<Case>) {
    forall i, j :: 0 <= i < j < |cases| ==> cases[i].id != cases[j].id
  }

  predicate DistinctKeys(jobs: seq<Job>) {
    forall a, b :: 0 <= a < b < |jobs| ==> KeyOf(jobs[a]) != KeyOf(jobs[b])
  }

  predicate ValidCases(cases: seq<Case>) {
    && (forall i :: 0 <= i < |cases| ==>
          cases[i].id != "" && cases[i].id in cases[i].selectors && "" !in cases[i].selectors)
    && DistinctIds(cases)
  }

  // `validate_normalized_cases`
  method ValidateCases(cases: seq<Case>) returns (ok: bool)
    ensures ok <==> ValidCases(cases)
  {
    var seen: set<string> := {};
    for i := 0 to |cases|
      invariant forall x :: x in seen <==> exists k :: 0 <= k < i && cases[k].id == x
      invariant forall k :: 0 <= k < i ==>
                  cases[k].id != "" && cases[k].id in cases[k].selectors && "" !in cases[k].selectors
      invariant forall j, k :: 0 <= j < k < i ==> cases[j].id != cases[k].id
    {
      if cases[i].id == "" || cases[i].id in seen {
        return false;
      }
      seen := seen + {cases[i].id};
      if cases[i].id !in cases[i].selectors || "" in cases[i].selectors {
        return false;
      }
    }
    return true;
  }

  predicate Picked(c: Case, selectors: seq<string>) {
    exists s :: s in c.selectors && s in selectors
  }

  function Pick(cases: seq<Case>, selectors: seq<string>): seq<Case> {
    if cases == [] then []
    else Pick(cases[..|cases| - 1], selectors)
         + if Picked(cases[|cases| - 1], selectors) then [cases[|cases| - 1]] else []
  }

  predicate KnownSelector(cases: seq<Case>, s: string) {
    exists i :: 0 <= i < |cases| && s in cases[i].selectors
  }

  // `select_cases`
  function Select(cases: seq<Case>, selectors: seq<string>, all: bool): Result<seq<Case>, PlanError> {
    if !ValidCases(cases) then Failure(BadCase)
    else if !all && selectors == [] then Failure(EmptySelection)
    else if "" in selectors then Failure(BadSelector)
    else if exists s :: s in selectors && !KnownSelector(cases, s) then Failure(UnknownSelector)
    else if all then Success(cases)
    else Success(Pick(cases, selectors))
  }

  function Iterations(c: Case, n: nat): seq<Job> {
    seq(n, k requires 0 <= k < n => Job(c, k + 1))
  }

  // Case by case, iteration by iteration.
  function Expand(cases: seq<Case>, n: nat): seq<Job> {
    if cases == [] then [] else Expand(cases[..|cases| - 1], n) + Iterations(cases[|cases| - 1], n)
  }

  function OfLane(jobs: seq<Job>, lane: Lane): seq<Job> {
    if jobs == [] then []
    else OfLane(jobs[..|jobs| - 1], lane) + if jobs[|jobs| - 1].case_.lane == lane then [jobs[|jobs| - 1]] else []
  }

  function Resolved(count: nat, requested: nat): nat {
    if count == 0 then 0 else if requested == 0 then count else if requested <= count then requested else count
  }

  // As many as asked for, or all when nothing is asked, and never more than there are jobs.
  predicate Parallel(parallelism: nat, count: nat, requested: int) {
    && parallelism <= count
    && (requested == 0 ==> parallelism == count)
    && (requested > 0 ==> parallelism <= requested && (parallelism < count ==> parallelism == requested))
  }

  // `resolve_run_schedule`
  method Schedule(jobs: seq<Job>, standard: int, runtime: int) returns (r: Result<RunPlan, PlanError>)
    ensures r.Success? <==>
              && (forall i :: 0 <= i < |jobs| ==> jobs[i].case_.lane.Standard? || jobs[i].case_.lane.Runtime?)
              && standard >= 0 && runtime >= 1
    ensures r.Success? ==>
              var first, second := OfLane(jobs, Standard), OfLane(jobs, Runtime);
              && r.value == RunPlan(first + second, Resolved(|first|, standard), Resolved(|second|, runtime))
              && Parallel(r.value.standardParallelism, |first|, standard)
              && Parallel(r.value.runtimeParallelism, |second|, runtime)
  {
    var first: seq<Job> := [];
    var second: seq<Job> := [];
    for i := 0 to |jobs|
      invariant first == OfLane(jobs[..i], Standard) && second == OfLane(jobs[..i], Runtime)
      invariant forall k :: 0 <= k < i ==> jobs[k].case_.lane.Standard? || jobs[k].case_.lane.Runtime?
    {
      SnocPrefix(jobs, i);
      match jobs[i].case_.lane
      case Standard => first := first + [jobs[i]];
      case Runtime => second := second + [jobs[i]];
      case OtherLane(_) => return Failure(BadLane);
    }
    assert jobs[..|jobs|] == jobs;
    if standard < 0 || runtime < 1 {
      return Failure(BadParallelism);
    }
    return Success(RunPlan(first + second, Resolved(|first|, standard), Resolved(|second|, runtime)));
  }

  // One of the selectors is among those of the case.
  predicate Chosen(c: Case, selectors: seq<string>) {
    exists i :: 0 <= i < |selectors| && selectors[i] in c.selectors
  }

  // What is asked of the suite, the selection and the numbers: every selector known, every selected case of a known
  // lane.
  predicate Accepted(cases: seq<Case>, selectors: seq<string>, all: bool, n: int, standard: int, runtime: int) {
    && ValidCases(cases) && (all || selectors != [])
    && (forall s :: s in selectors ==> s != "" && exists i :: 0 <= i < |cases| && s in cases[i].selectors)
    && n >= 1 && standard >= 0 && runtime >= 1
    && (forall c :: c in cases && (all || Chosen(c, selectors)) ==> c.lane.Standard? || c.lane.Runtime?)
  }

  // `build_run_plan`
  method BuildPlan(cases: seq<Case>, selectors: seq<string>, all: bool, n: int, standard: int, runtime: int)
    returns (r: Result<RunPlan, PlanError>)
    ensures r.Success? <==> Accepted(cases, selectors, all, n, standard, runtime)
    ensures r.Success? ==>
              && Select(cases, selectors, all).Success? && n >= 1
              && var selected := Select(cases, selectors, all).value;
                 var jobs := Expand(selected, n);
                 && ValidCases(selected)
                 && r.value.jobs == OfLane(jobs, Standard) + OfLane(jobs, Runtime)
                 && PlansExactly(r.value.jobs, selected, n)
    ensures r.Success? ==> forall j :: j in r.value.jobs <==>
              j.case_ in cases && (all || Chosen(j.case_, selectors)) && 1 <= j.iteration <= n
  {
    hide Pick, ValidCases, PlansExactly, Expand, OfLane;
    var valid := ValidateCases(cases);
    var chosen := Select(cases, selectors, all);
    if !valid || chosen.Failure? {
      return Failure(if valid then chosen.error else BadCase);
    }
    SelectionIsValid(cases, selectors, all);
    SelectionMembers(cases, selectors, all);
    if n < 1 {
      return Failure(BadIterations);
    }
    LanesOfJobs(chosen.value, n);
    r := Schedule(Expand(chosen.value, n), standard, runtime);
    if r.Success? {
      PlanIsExact(chosen.value, n);
      PlanMembers(r.value.jobs, chosen.value, n);
    }
  }

  // ---------- what a plan holds ----------

  lemma {:induction false} PickMembers(cases: seq<Case>, selectors: seq<string>)
    requires DistinctIds(cases)
    ensures forall c :: c in Pick(cases, selectors) <==> c in cases && Picked(c, selectors)
    ensures DistinctIds(Pick(cases, selectors))
  {
    if cases != [] {
      hide Picked;
      var front, last := cases[..|cases| - 1], cases[|cases| - 1];
      assert cases == front + [last];
      PickMembers(front, selectors);
      var before := Pick(front, selectors);
      forall i | 0 <= i < |before| ensures before[i].id != last.id {
        assert before[i] in front;
        var k :| 0 <= k < |front| && front[k] == before[i];
        assert cases[k].id != cases[|front|].id;
      }
    }
  }

  lemma SelectionIsValid(cases: seq<Case>, selectors: seq<string>, all: bool)
    requires Select(cases, selectors, all).Success?
    ensures ValidCases(Select(cases, selectors, all).value)
  {
    hide Pick, Picked;
    if !all {
      var picked := Pick(cases, selectors);
      PickMembers(cases, selectors);
      forall i | 0 <= i < |picked|
        ensures picked[i].id != "" && picked[i].id in picked[i].selectors && "" !in picked[i].selectors
      {
        assert picked[i] in cases;
      }
    }
  }

  lemma SelectionMembers(cases: seq<Case>, selectors: seq<string>, all: bool)
    requires Select(cases, selectors, all).Success?
    ensures forall c :: c in Select(cases, selectors, all).value <==> c in cases && (all || Chosen(c, selectors))
  {
    hide Pick, Picked, Chosen;
    if !all { PickMembers(cases, selectors); }
    forall c { PickedIsChosen(c, selectors); }
  }

  lemma PickedIsChosen(c: Case, selectors: seq<string>)
    ensures Picked(c, selectors) <==> Chosen(c, selectors)
  {
    if i :| 0 <= i < |selectors| && selectors[i] in c.selectors { assert selectors[i] in selectors; }
  }

  // The jobs are of known lanes exactly when the cases are.
  lemma LanesOfJobs(cases: seq<Case>, n: nat)
    requires n >= 1
    ensures (forall i :: 0 <= i < |Expand(cases, n)| ==> Laned(Expand(cases, n)[i]))
            <==> forall c :: c in cases ==> c.lane.Standard? || c.lane.Runtime?
  {
    hide Expand;
    ExpandMembers(cases, n);
    forall c | c in cases && (forall i :: 0 <= i < |Expand(cases, n)| ==> Laned(Expand(cases, n)[i]))
      ensures c.lane.Standard? || c.lane.Runtime?
    {
      assert Job(c, 1) in Expand(cases, n);
    }
    forall i | 0 <= i < |Expand(cases, n)| && forall c :: c in cases ==> c.lane.Standard? || c.lane.Runtime?
      ensures Laned(Expand(cases, n)[i])
    {
      assert Expand(cases, n)[i] in Expand(cases, n);
    }
  }

  // Exactly the selected cases times the iterations, each key once.
  ghost predicate PlansExactly(jobs: seq<Job>, selected: seq<Case>, n: nat) {
    && (forall j :: j in jobs <==> j.case_ in selected && 1 <= j.iteration <= n && Laned(j))
    && DistinctKeys(jobs)
    && ((forall i :: 0 <= i < |selected| ==> selected[i].lane.Standard? || selected[i].lane.Runtime?) ==>
          |jobs| == |selected| * n)
  }

  lemma PlanMembers(jobs: seq<Job>, selected: seq<Case>, n: nat)
    requires PlansExactly(jobs, selected, n)
    requires forall c :: c in selected ==> c.lane.Standard? || c.lane.Runtime?
    ensures forall j :: j in jobs <==> j.case_ in selected && 1 <= j.iteration <= n
  {}

  predicate Laned(j: Job) { j.case_.lane.Standard? || j.case_.lane.Runtime? }

  lemma {:induction false} ExpandMembers(cases: seq<Case>, n: nat)
    ensures forall j :: j in Expand(cases, n) <==> j.case_ in cases && 1 <= j.iteration <= n
    ensures |Expand(cases, n)| == |cases| * n
  {
    if cases != [] {
      var front, last := cases[..|cases| - 1], cases[|cases| - 1];
      assert cases == front + [last];
      ExpandMembers(front, n);
      forall j ensures j in Expand(cases, n) <==> j.case_ in cases && 1 <= j.iteration <= n {
        if j.case_ == last && 1 <= j.iteration <= n { assert Iterations(last, n)[j.iteration - 1] == j; }
      }
      assert |cases| * n == |front| * n + n;
    }
  }

  // Two lists without a key in common.
  lemma KeysTogether(a: seq<Job>, b: seq<Job>)
    requires DistinctKeys(a) && DistinctKeys(b)
    requires forall x, y :: x in a && y in b ==> KeyOf(x) != KeyOf(y)
    ensures DistinctKeys(a + b)
  {}

  lemma {:induction false} ExpandKeys(cases: seq<Case>, n: nat)
    requires DistinctIds(cases)
    ensures DistinctKeys(Expand(cases, n))
  {
    if cases != [] {
      var front, last := cases[..|cases| - 1], cases[|cases| - 1];
      assert cases == front + [last];
      assert forall i :: 0 <= i < |front| ==> front[i] == cases[i];
      ExpandKeys(front, n);
      ExpandMembers(front, n);
      forall x, y | x in Expand(front, n) && y in Iterations(last, n) ensures KeyOf(x) != KeyOf(y) {
        var i :| 0 <= i < |front| && front[i] == x.case_;
        assert cases[i].id != cases[|front|].id;
      }
      KeysTogether(Expand(front, n), Iterations(last, n));
    }
  }

  lemma {:induction false} LaneMembers(jobs: seq<Job>, lane: Lane)
    ensures forall j :: j in OfLane(jobs, lane) <==> j in jobs && j.case_.lane == lane
    ensures DistinctKeys(jobs) ==> DistinctKeys(OfLane(jobs, lane))
  {
    if jobs != [] {
      var front, last := jobs[..|jobs| - 1], jobs[|jobs| - 1];
      assert jobs == front + [last];
      LaneMembers(front, lane);
      if DistinctKeys(jobs) {
        assert forall a :: 0 <= a < |front| ==> front[a] == jobs[a];
        forall x, y | x in OfLane(front, lane) && y in [last] ensures KeyOf(x) != KeyOf(y) {
          var i :| 0 <= i < |front| && front[i] == x;
          assert KeyOf(jobs[i]) != KeyOf(jobs[|front|]);
        }
        KeysTogether(OfLane(front, lane), [last]);
        assert OfLane(front, lane) + [] == OfLane(front, lane);
      }
    }
  }

  lemma {:induction false} LaneCounts(jobs: seq<Job>)
    requires forall i :: 0 <= i < |jobs| ==> Laned(jobs[i])
    ensures |OfLane(jobs, Standard)| + |OfLane(jobs, Runtime)| == |jobs|
  {
    if jobs != [] { LaneCounts(jobs[..|jobs| - 1]); }
  }

  lemma PlanIsExact(selected: seq<Case>, n: nat)
    requires ValidCases(selected)
    ensures PlansExactly(OfLane(Expand(selected, n), Standard) + OfLane(Expand(selected, n), Runtime), selected, n)
  {
    hide Expand, OfLane, DistinctKeys;
    var jobs := Expand(selected, n);
    var first, second := OfLane(jobs, Standard), OfLane(jobs, Runtime);
    ExpandMembers(selected, n);
    ExpandKeys(selected, n);
    LaneMembers(jobs, Standard);
    LaneMembers(jobs, Runtime);
    forall x, y | x in first && y in second ensures KeyOf(x) != KeyOf(y) {
      KeysTellApart(jobs, x, y);
    }
    KeysTogether(first, second);
    if forall i :: 0 <= i < |selected| ==> selected[i].lane.Standard? || selected[i].lane.Runtime? {
      forall i | 0 <= i < |jobs| ensures Laned(jobs[i]) { assert jobs[i] in jobs; }
      LaneCounts(jobs);
    }
  }

  lemma KeysTellApart(jobs: seq<Job>, x: Job, y: Job)
    requires DistinctKeys(jobs) && x in jobs && y in jobs && x != y
    ensures KeyOf(x) != KeyOf(y)
  {}
}

module Runs {
  import opened Wrappers
  import opened Sequences
  import opened Plan

  datatype Status = Passed | Failed | NonEvidence | Errored | NotRun

  // An artifact as the store returns it after verification.
  datatype Artifact = Single(classification: Status) | Compared(decision: Status) | Uncomparable | OddComparison

  // What executing one job comes to. A run executes each job at most once.
  datatype Outcome = Produced(artifact: Artifact) | Raised

  type Executor = Job -> Outcome

  // `_persist_lane` on a verified artifact
  function ClassificationOf(a: Artifact): Status {
    match a
    case Single(c) => c
    case Compared(d) => d
    case Uncomparable => NonEvidence
    case OddComparison => Errored
  }

  // What one lane leaves behind: every job has its artifact or its error, and nothing else does.
  ghost predicate LaneDone(jobs: seq<Job>, done: set<nat>, execute: Executor, artifacts: map<Key, Artifact>,
                           errors: set<Key>)
  {
    && (forall i: nat :: i < |jobs| && i in done ==>
          if execute(jobs[i]).Produced? then
            KeyOf(jobs[i]) in artifacts && artifacts[KeyOf(jobs[i])] == execute(jobs[i]).artifact
          else KeyOf(jobs[i]) in errors)
    && (forall k :: k in artifacts ==>
          exists i: nat :: i < |jobs| && i in done && KeyOf(jobs[i]) == k && execute(jobs[i]).Produced?)
    && (forall k :: k in errors ==>
          exists i: nat :: i < |jobs| && i in done && KeyOf(jobs[i]) == k && execute(jobs[i]).Raised?)
  }

  function Everyone(n: nat): (s: set<nat>)
    ensures forall i: nat :: i in s <==> i < n
  {
    if n == 0 then {} else Everyone(n - 1) + {n - 1}
  }

  // Every job completes exactly once, in some order.
  predicate CompletionOrder(order: seq<nat>, n: nat) {
    && (forall k :: 0 <= k < |order| ==> order[k] < n)
    && (forall i :: 0 <= i < n ==> i in order)
    && NoDuplicates(order)
  }

  lemma OneMoreDone(jobs: seq<Job>, done: set<nat>, i: nat, execute: Executor, artifacts: map<Key, Artifact>,
                    errors: set<Key>)
    requires DistinctKeys(jobs) && i < |jobs| && LaneDone(jobs, done, execute, artifacts, errors)
    ensures var key := KeyOf(jobs[i]);
            if execute(jobs[i]).Produced? then
              LaneDone(jobs, done + {i}, execute, artifacts[key := execute(jobs[i]).artifact], errors)
            else LaneDone(jobs, done + {i}, execute, artifacts, errors + {key})
  {}

  // `_run_lane`: one job after another, or in whatever order the pool completes them.
  method RunLane(jobs: seq<Job>, parallelism: nat, execute: Executor, order: seq<nat>)
    returns (artifacts: map<Key, Artifact>, errors: set<Key>)
    requires DistinctKeys(jobs) && CompletionOrder(order, |jobs|)
    ensures LaneDone(jobs, Everyone(|jobs|), execute, artifacts, errors)
  {
    hide LaneDone, DistinctKeys;
    artifacts, errors := map[], {};
    NothingDone(jobs, execute);
    var turns: seq<nat> := if parallelism <= 1 then seq(|jobs|, i requires 0 <= i < |jobs| => i) else order;
    ghost var done: set<nat> := {};
    for k := 0 to |turns|
      invariant LaneDone(jobs, done, execute, artifacts, errors)
      invariant forall i: nat :: i in done <==> i in turns[..k]
    {
      SnocPrefix(turns, k);
      var i := turns[k];
      OneMoreDone(jobs, done, i, execute, artifacts, errors);
      match execute(jobs[i]) {
        case Produced(artifact) => artifacts := artifacts[KeyOf(jobs[i]) := artifact];
        case Raised => errors := errors + {KeyOf(jobs[i])};
      }
      done := done + {i};
    }
    assert turns[..|turns|] == turns;
    forall i: nat ensures i in done <==> i < |jobs| {
      if parallelism <= 1 && i < |jobs| { assert turns[i] == i; }
    }
    assert done == Everyone(|jobs|);
  }

  lemma NothingDone(jobs: seq<Job>, execute: Executor)
    ensures LaneDone(jobs, {}, execute, map[], {})
  {}

  predicate KeyAmong(jobs: seq<Job>, k: Key) {
    exists i :: 0 <= i < |jobs| && KeyOf(jobs[i]) == k
  }

  predicate Persisted(j: Job, artifacts: map<Key, Artifact>, statuses: map<Key, Status>, store: map<Key, Artifact>) {
    KeyOf(j) in artifacts ==>
      && KeyOf(j) in store && store[KeyOf(j)] == artifacts[KeyOf(j)]
      && KeyOf(j) in statuses && statuses[KeyOf(j)] == ClassificationOf(artifacts[KeyOf(j)])
  }

  // The statuses and the artifact store of one run.
  class RunState {
    var statuses: map<Key, Status>
    var store: map<Key, Artifact>

    constructor ()
      ensures statuses == map[] && store == map[]
    {
      statuses, store := map[], map[];
    }

    // `_persist_lane`
    method PersistLane(jobs: seq<Job>, artifacts: map<Key, Artifact>)
      modifies this
      ensures forall i :: 0 <= i < |jobs| ==> Persisted(jobs[i], artifacts, statuses, store)
      ensures forall k :: !KeyAmong(jobs, k) || k !in artifacts ==>
                SameAt(statuses, old(statuses), k) && SameAt(store, old(store), k)
    {
      for i := 0 to |jobs|
        invariant forall j :: 0 <= j < i ==> Persisted(jobs[j], artifacts, statuses, store)
        invariant forall k :: !KeyAmong(jobs, k) || k !in artifacts ==>
                    SameAt(statuses, old(statuses), k) && SameAt(store, old(store), k)
      {
        var key := KeyOf(jobs[i]);
        assert KeyAmong(jobs, key);
        if key in artifacts {
          store := store[key := artifacts[key]];
          statuses := statuses[key := ClassificationOf(store[key])];
        }
      }
    }

    // `_error_report`, and the loop that marks what was not run
    method Mark(jobs: seq<Job>, keys: set<Key>, status: Status)
      modifies this`statuses
      ensures forall k :: SameAt(statuses, old(statuses), k)
                          || (k in keys && k in statuses && statuses[k] == status)
      ensures forall i :: 0 <= i < |jobs| && KeyOf(jobs[i]) in keys ==>
                KeyOf(jobs[i]) in statuses && statuses[KeyOf(jobs[i])] == status
    {
      for i := 0 to |jobs|
        invariant forall k :: SameAt(statuses, old(statuses), k)
                              || (k in keys && k in statuses && statuses[k] == status)
        invariant forall j :: 0 <= j < i && KeyOf(jobs[j]) in keys ==>
                    KeyOf(jobs[j]) in statuses && statuses[KeyOf(jobs[j])] == status
      {
        var key := KeyOf(jobs[i]);
        if key in keys {
          statuses := statuses[key := status];
        }
      }
    }
  }

  predicate SameAt<T(==)>(m: map<Key, T>, n: map<Key, T>, k: Key) {
    (k in m <==> k in n) && (k in m ==> m[k] == n[k])
  }

  // ---------- what every job is due ----------

  predicate SomeRaised(jobs: seq<Job>, execute: Executor) {
    exists i :: 0 <= i < |jobs| && execute(jobs[i]).Raised?
  }

  function OwnStatus(execute: Executor, j: Job): Status {
    match execute(j)
    case Produced(a) => ClassificationOf(a)
    case Raised => Errored
  }

  // A runtime job is not run when some standard job raised.
  function DueStatus(execute: Executor, standard: seq<Job>, j: Job): Status {
    if j.case_.lane.Runtime? && SomeRaised(standard, execute) then NotRun else OwnStatus(execute, j)
  }

  function CountStatus(jobs: seq<Job>, statuses: map<Key, Status>, s: Status): nat {
    if jobs == [] then 0
    else
      var key := KeyOf(jobs[|jobs| - 1]);
      CountStatus(jobs[..|jobs| - 1], statuses, s)
      + if (key in statuses && statuses[key] == s) || (key !in statuses && s == NotRun) then 1 else 0
  }

  // A job without a status has not been run.
  function StatusOf(statuses: map<Key, Status>, j: Job): Status {
    if KeyOf(j) in statuses then statuses[KeyOf(j)] else NotRun
  }

  datatype State = StatePass | StateVerdict | StateError

  datatype Summary = Summary(
    state: State, passed: nat, failed: nat, nonEvidence: nat, errors: nat, notRun: nat, total: nat)

  function StateFor(failed: nat, nonEvidence: nat, errors: nat, notRun: nat): State {
    if errors != 0 || notRun != 0 then StateError
    else if failed != 0 || nonEvidence != 0 then StateVerdict
    else StatePass
  }

  // What a state says of the counts beside it.
  predicate TellsState(s: Summary) {
    && (s.state == StatePass <==> s.failed == 0 && s.nonEvidence == 0 && s.errors == 0 && s.notRun == 0)
    && (s.state == StateError <==> s.errors > 0 || s.notRun > 0)
    && (s.state == StateVerdict <==> s.errors == 0 && s.notRun == 0 && (s.failed > 0 || s.nonEvidence > 0))
  }

  // A verdict is in the store as it was given: carried by the artifact, or none where nothing could be compared.
  predicate StoredAs(j: Job, statuses: map<Key, Status>, store: map<Key, Artifact>) {
    var key := KeyOf(j);
    && (key in statuses && statuses[key] == Passed ==> key in store && Carries(store[key], Passed))
    && (key in statuses && statuses[key] == Failed ==> key in store && Carries(store[key], Failed))
    && (key in statuses && statuses[key] == NonEvidence ==>
          key in store && (Carries(store[key], NonEvidence) || store[key] == Uncomparable))
  }

  predicate Unchanged(j: Job, statuses: map<Key, Status>, store: map<Key, Artifact>) {
    var s := StatusOf(statuses, j);
    s.Passed? || s.Failed? || s.NonEvidence? ==> KeyOf(j) in store && ClassificationOf(store[KeyOf(j)]) == s
  }

  lemma UnchangedIsStored(j: Job, statuses: map<Key, Status>, store: map<Key, Artifact>)
    ensures Unchanged(j, statuses, store) <==> StoredAs(j, statuses, store)
    ensures StatusOf(statuses, j) in {Errored, NotRun} ==> StoredAs(j, statuses, store)
  {}

  // `_summary_from_store`: every verdict is read again from the store and must not have changed.
  method Summarize(jobs: seq<Job>, statuses: map<Key, Status>, store: map<Key, Artifact>)
    returns (r: Result<Summary, ()>)
    ensures r.Success? <==> forall i :: 0 <= i < |jobs| ==> StoredAs(jobs[i], statuses, store)
    ensures r.Success? ==>
              && r.value.passed == CountStatus(jobs, statuses, Passed)
              && r.value.failed == CountStatus(jobs, statuses, Failed)
              && r.value.nonEvidence == CountStatus(jobs, statuses, NonEvidence)
              && r.value.errors == CountStatus(jobs, statuses, Errored)
              && r.value.notRun == CountStatus(jobs, statuses, NotRun)
              && r.value.total == |jobs| && TellsState(r.value)
  {
    hide Unchanged, StoredAs;
    var passed, failed, nonEvidence, errors, skipped := 0, 0, 0, 0, 0;
    for i := 0 to |jobs|
      invariant passed == CountStatus(jobs[..i], statuses, Passed)
      invariant failed == CountStatus(jobs[..i], statuses, Failed)
      invariant nonEvidence == CountStatus(jobs[..i], statuses, NonEvidence)
      invariant errors == CountStatus(jobs[..i], statuses, Errored)
      invariant skipped == CountStatus(jobs[..i], statuses, NotRun)
      invariant forall j :: 0 <= j < i ==> StoredAs(jobs[j], statuses, store)
    {
      SnocPrefix(jobs, i);
      UnchangedIsStored(jobs[i], statuses, store);
      var status := StatusOf(statuses, jobs[i]);
      if status.Errored? {
        errors := errors + 1;
      } else if status.NotRun? {
        skipped := skipped + 1;
      } else {
        if !Unchanged(jobs[i], statuses, store) {
          return Failure(());
        }
        match status
        case Passed => passed := passed + 1;
        case Failed => failed := failed + 1;
        case NonEvidence => nonEvidence := nonEvidence + 1;
      }
    }
    assert jobs[..|jobs|] == jobs;
    return Success(Summary(StateFor(failed, nonEvidence, errors, skipped), passed, failed, nonEvidence, errors, skipped,
                           |jobs|));
  }

  lemma {:induction false} CountsAddUp(jobs: seq<Job>, statuses: map<Key, Status>)
    ensures CountStatus(jobs, statuses, Passed) + CountStatus(jobs, statuses, Failed)
            + CountStatus(jobs, statuses, NonEvidence) + CountStatus(jobs, statuses, Errored)
            + CountStatus(jobs, statuses, NotRun) == |jobs|
  {
    if jobs != [] { CountsAddUp(jobs[..|jobs| - 1], statuses); }
  }

  // ---------- a whole run ----------

  // Every job of a lane has the status of its own execution, and its artifact if there is one.
  ghost predicate LaneSettled(jobs: seq<Job>, execute: Executor, statuses: map<Key, Status>,
                              store: map<Key, Artifact>)
  {
    forall i :: 0 <= i < |jobs| ==>
      && KeyOf(jobs[i]) in statuses && statuses[KeyOf(jobs[i])] == OwnStatus(execute, jobs[i])
      && (execute(jobs[i]).Produced? ==>
            KeyOf(jobs[i]) in store && store[KeyOf(jobs[i])] == execute(jobs[i]).artifact)
  }

  // One lane: run it, persist what it produced, report what it raised.
  method SettleLane(state: RunState, jobs: seq<Job>, parallelism: nat, execute: Executor, order: seq<nat>)
    returns (raised: bool)
    requires DistinctKeys(jobs) && CompletionOrder(order, |jobs|)
    modifies state
    ensures LaneSettled(jobs, execute, state.statuses, state.store)
    ensures raised <==> SomeRaised(jobs, execute)
    ensures forall k :: !KeyAmong(jobs, k) ==>
              SameAt(state.statuses, old(state.statuses), k) && SameAt(state.store, old(state.store), k)
  {
    hide DistinctKeys, CompletionOrder, KeyAmong, ClassificationOf;
    var artifacts, errors := RunLane(jobs, parallelism, execute, order);
    LaneParts(jobs, execute, artifacts, errors);
    state.PersistLane(jobs, artifacts);
    assert forall k :: !KeyAmong(jobs, k) ==>
             SameAt(state.statuses, old(state.statuses), k) && SameAt(state.store, old(state.store), k);
    state.Mark(jobs, errors, Errored);
    raised := errors != {};
  }

  lemma LaneParts(jobs: seq<Job>, execute: Executor, artifacts: map<Key, Artifact>, errors: set<Key>)
    requires DistinctKeys(jobs) && LaneDone(jobs, Everyone(|jobs|), execute, artifacts, errors)
    ensures forall i :: 0 <= i < |jobs| ==>
              if execute(jobs[i]).Produced? then
                && KeyOf(jobs[i]) in artifacts && artifacts[KeyOf(jobs[i])] == execute(jobs[i]).artifact
                && KeyOf(jobs[i]) !in errors
              else KeyOf(jobs[i]) in errors && KeyOf(jobs[i]) !in artifacts
    ensures forall k :: k in artifacts || k in errors ==> KeyAmong(jobs, k)
    ensures errors != {} <==> SomeRaised(jobs, execute)
  {
    forall i, k | 0 <= i < |jobs| && 0 <= k < |jobs| && i != k ensures KeyOf(jobs[i]) != KeyOf(jobs[k]) {
      if i < k { assert KeyOf(jobs[i]) != KeyOf(jobs[k]); } else { assert KeyOf(jobs[k]) != KeyOf(jobs[i]); }
    }
    if errors != {} {
      var k :| k in errors;
    }
    if i :| 0 <= i < |jobs| && execute(jobs[i]).Raised? { assert KeyOf(jobs[i]) in errors; }
  }

  // Every planned job has one terminal status, the one it is due.
  ghost predicate Terminal(jobs: seq<Job>, execute: Executor, statuses: map<Key, Status>, store: map<Key, Artifact>) {
    forall i :: 0 <= i < |jobs| ==>
      && KeyOf(jobs[i]) in statuses
      && statuses[KeyOf(jobs[i])] == DueStatus(execute, OfLane(jobs, Standard), jobs[i])
      && Unchanged(jobs[i], statuses, store)
  }

  // ---------- what the summary says of the executions ----------

  // The classification an artifact carries: its own, or that of its comparison.
  predicate Carries(a: Artifact, s: Status) {
    a == Single(s) || a == Compared(s)
  }

  // A job was started unless it is a runtime job and some standard job of the plan raised.
  predicate Ran(execute: Executor, jobs: seq<Job>, j: Job) {
    j.case_.lane == Runtime ==>
      forall i :: 0 <= i < |jobs| && jobs[i].case_.lane == Standard ==> execute(jobs[i]) != Raised
  }

  // What one job came to, on its artifact alone. A comparison without evidence is none; an odd one is an error.
  predicate CameTo(execute: Executor, jobs: seq<Job>, j: Job, s: Status) {
    match s
    case Passed => Ran(execute, jobs, j) && execute(j).Produced? && Carries(execute(j).artifact, Passed)
    case Failed => Ran(execute, jobs, j) && execute(j).Produced? && Carries(execute(j).artifact, Failed)
    case NonEvidence =>
      Ran(execute, jobs, j) && execute(j).Produced?
      && (Carries(execute(j).artifact, NonEvidence) || execute(j).artifact == Uncomparable)
    case Errored =>
      Ran(execute, jobs, j)
      && (execute(j).Raised? || Carries(execute(j).artifact, Errored) || execute(j).artifact == OddComparison)
    case NotRun => !Ran(execute, jobs, j) || (execute(j).Produced? && Carries(execute(j).artifact, NotRun))
  }

  function HowMany(execute: Executor, all: seq<Job>, jobs: seq<Job>, s: Status): nat {
    if jobs == [] then 0
    else HowMany(execute, all, jobs[..|jobs| - 1], s) + if CameTo(execute, all, jobs[|jobs| - 1], s) then 1 else 0
  }

  // No artifact, or one that is itself an error or was never run.
  predicate Broken(o: Outcome) {
    || o.Raised? || o.artifact == OddComparison || Carries(o.artifact, Errored) || Carries(o.artifact, NotRun)
  }

  predicate PassedAll(execute: Executor, jobs: seq<Job>) {
    forall i :: 0 <= i < |jobs| ==> execute(jobs[i]).Produced? && Carries(execute(jobs[i]).artifact, Passed)
  }

  // The state and the counts of a run, from what its jobs do when they are executed.
  ghost predicate TellsRun(s: Summary, jobs: seq<Job>, execute: Executor) {
    && (s.state == StatePass <==> PassedAll(execute, jobs))
    && (s.state == StateError <==> exists i :: 0 <= i < |jobs| && Broken(execute(jobs[i])))
    && (s.state == StateVerdict <==>
          !PassedAll(execute, jobs) && forall i :: 0 <= i < |jobs| ==> !Broken(execute(jobs[i])))
    && s.passed == HowMany(execute, jobs, jobs, Passed) && s.failed == HowMany(execute, jobs, jobs, Failed)
    && s.nonEvidence == HowMany(execute, jobs, jobs, NonEvidence)
    && s.errors == HowMany(execute, jobs, jobs, Errored) && s.notRun == HowMany(execute, jobs, jobs, NotRun)
    && s.total == |jobs|
  }

  // The status a job is due is what it came to.
  lemma DueIsCameTo(jobs: seq<Job>, execute: Executor, j: Job, s: Status)
    ensures DueStatus(execute, OfLane(jobs, Standard), j) == s <==> CameTo(execute, jobs, j, s)
  {
    StandardRaised(jobs, execute);
  }

  lemma StandardRaised(jobs: seq<Job>, execute: Executor)
    ensures SomeRaised(OfLane(jobs, Standard), execute)
            <==> exists i :: 0 <= i < |jobs| && jobs[i].case_.lane == Standard && execute(jobs[i]) == Raised
  {
    hide OfLane;
    var standard := OfLane(jobs, Standard);
    LaneMembers(jobs, Standard);
    if SomeRaised(standard, execute) {
      var k :| 0 <= k < |standard| && execute(standard[k]).Raised?;
      assert standard[k] in standard;
    }
    if i :| 0 <= i < |jobs| && jobs[i].case_.lane == Standard && execute(jobs[i]) == Raised {
      assert jobs[i] in jobs && jobs[i] in standard;
    }
  }

  lemma {:induction false} CountIsHowMany(all: seq<Job>, jobs: seq<Job>, execute: Executor, statuses: map<Key, Status>,
                                          s: Status)
    requires forall i :: 0 <= i < |jobs| ==>
               StatusOf(statuses, jobs[i]) == DueStatus(execute, OfLane(all, Standard), jobs[i])
    ensures CountStatus(jobs, statuses, s) == HowMany(execute, all, jobs, s)
  {
    hide DueStatus, CameTo;
    if jobs != [] {
      var front, last := jobs[..|jobs| - 1], jobs[|jobs| - 1];
      CountIsHowMany(all, front, execute, statuses, s);
      DueIsCameTo(all, execute, last, s);
    }
  }

  lemma {:induction false} NoneCame(all: seq<Job>, jobs: seq<Job>, execute: Executor, s: Status)
    ensures HowMany(execute, all, jobs, s) == 0
            <==> forall i :: 0 <= i < |jobs| ==> !CameTo(execute, all, jobs[i], s)
  {
    hide CameTo;
    if jobs != [] {
      var n := |jobs| - 1;
      NoneCame(all, jobs[..n], execute, s);
      assert forall i :: 0 <= i < n ==> jobs[..n][i] == jobs[i];
    }
  }

  // An error or a job that was not run goes back to something broken, and something broken leads to one of them.
  lemma BrokenShows(jobs: seq<Job>, execute: Executor)
    requires forall i :: 0 <= i < |jobs| ==> Laned(jobs[i])
    ensures (exists i :: 0 <= i < |jobs| && Broken(execute(jobs[i])))
            <==> exists i :: 0 <= i < |jobs| && (CameTo(execute, jobs, jobs[i], Errored)
                                                 || CameTo(execute, jobs, jobs[i], NotRun))
  {
    if i :| 0 <= i < |jobs| && Broken(execute(jobs[i])) {
      assert CameTo(execute, jobs, jobs[i], Errored) || CameTo(execute, jobs, jobs[i], NotRun);
    }
    if i :| 0 <= i < |jobs| && CameTo(execute, jobs, jobs[i], NotRun) && !Ran(execute, jobs, jobs[i]) {
      var k :| 0 <= k < |jobs| && jobs[k].case_.lane == Standard && execute(jobs[k]) == Raised;
      assert Broken(execute(jobs[k]));
    }
  }

  // Where nothing is broken every job ran and its artifact decides.
  lemma UnbrokenRan(jobs: seq<Job>, execute: Executor)
    requires forall i :: 0 <= i < |jobs| ==> !Broken(execute(jobs[i]))
    ensures forall i :: 0 <= i < |jobs| ==>
              (CameTo(execute, jobs, jobs[i], Passed)
               <==> execute(jobs[i]).Produced? && Carries(execute(jobs[i]).artifact, Passed))
    ensures forall i :: 0 <= i < |jobs| ==>
              CameTo(execute, jobs, jobs[i], Passed) || CameTo(execute, jobs, jobs[i], Failed)
              || CameTo(execute, jobs, jobs[i], NonEvidence)
  {
    forall i | 0 <= i < |jobs| ensures Ran(execute, jobs, jobs[i]) {
      assert forall k :: 0 <= k < |jobs| ==> !Broken(execute(jobs[k]));
    }
  }

  lemma OneStatus(jobs: seq<Job>, execute: Executor, j: Job)
    ensures CameTo(execute, jobs, j, Passed) ==>
              !CameTo(execute, jobs, j, Failed) && !CameTo(execute, jobs, j, NonEvidence)
  {}

  lemma SummaryTellsRun(jobs: seq<Job>, execute: Executor, statuses: map<Key, Status>, store: map<Key, Artifact>,
                        s: Summary)
    requires forall i :: 0 <= i < |jobs| ==> Laned(jobs[i])
    requires Terminal(jobs, execute, statuses, store) && Tallies(s, jobs, statuses)
    ensures TellsRun(s, jobs, execute)
  {
    hide DueStatus, OfLane, CameTo, HowMany, CountStatus, Broken, Carries, Unchanged;
    CountIsHowMany(jobs, jobs, execute, statuses, Passed);
    CountIsHowMany(jobs, jobs, execute, statuses, Failed);
    CountIsHowMany(jobs, jobs, execute, statuses, NonEvidence);
    CountIsHowMany(jobs, jobs, execute, statuses, Errored);
    CountIsHowMany(jobs, jobs, execute, statuses, NotRun);
    NoneCame(jobs, jobs, execute, Failed);
    NoneCame(jobs, jobs, execute, NonEvidence);
    NoneCame(jobs, jobs, execute, Errored);
    NoneCame(jobs, jobs, execute, NotRun);
    BrokenShows(jobs, execute);
    PassedIsUnbroken(jobs, execute);
    if forall i :: 0 <= i < |jobs| ==> !Broken(execute(jobs[i])) {
      UnbrokenRan(jobs, execute);
      forall i | 0 <= i < |jobs| { OneStatus(jobs, execute, jobs[i]); }
    }
  }

  lemma PassedIsUnbroken(jobs: seq<Job>, execute: Executor)
    ensures PassedAll(execute, jobs) ==> forall i :: 0 <= i < |jobs| ==> !Broken(execute(jobs[i]))
  {}

  // The executing part of `run_eval`. WHATEVER THE ORDER OF COMPLETION, every planned job ends with exactly the
  // status it is due, and the summary is read back unchanged.
  method ExecutePlan(plan: RunPlan, execute: Executor, standardOrder: seq<nat>, runtimeOrder: seq<nat>)
    returns (state: RunState, summary: Summary)
    requires DistinctKeys(plan.jobs) && forall i :: 0 <= i < |plan.jobs| ==> Laned(plan.jobs[i])
    requires CompletionOrder(standardOrder, |OfLane(plan.jobs, Standard)|)
    requires CompletionOrder(runtimeOrder, |OfLane(plan.jobs, Runtime)|)
    ensures fresh(state) && Terminal(plan.jobs, execute, state.statuses, state.store)
    ensures Tallies(summary, plan.jobs, state.statuses)
    ensures TellsRun(summary, plan.jobs, execute)
  {
    hide OfLane, DistinctKeys, CompletionOrder, LaneSettled, SomeRaised, KeyAmong, TellsRun;
    state := new RunState();
    var standard, runtime := OfLane(plan.jobs, Standard), OfLane(plan.jobs, Runtime);
    LaneMembers(plan.jobs, Standard);
    LaneMembers(plan.jobs, Runtime);
    var raised := SettleLane(state, standard, plan.standardParallelism, execute, standardOrder);
    ghost var statuses, store := state.statuses, state.store;
    if raised {
      var keys := set i | 0 <= i < |runtime| :: KeyOf(runtime[i]);
      state.Mark(runtime, keys, NotRun);
      NotRunAfterwards(plan.jobs, execute, statuses, state.statuses, state.store, keys);
    } else {
      var more := SettleLane(state, runtime, plan.runtimeParallelism, execute, runtimeOrder);
      BothLanesSettled(plan.jobs, execute, statuses, store, state.statuses, state.store);
    }
    var r := Summarize(plan.jobs, state.statuses, state.store);
    TerminalIsUnchanged(plan.jobs, execute, state.statuses, state.store);
    CountsAddUp(plan.jobs, state.statuses);
    summary := r.value;
    SummaryTellsRun(plan.jobs, execute, state.statuses, state.store, summary);
  }

  lemma TerminalIsUnchanged(jobs: seq<Job>, execute: Executor, statuses: map<Key, Status>, store: map<Key, Artifact>)
    requires Terminal(jobs, execute, statuses, store)
    ensures forall i :: 0 <= i < |jobs| ==> Unchanged(jobs[i], statuses, store)
  {}

  ghost predicate Tallies(s: Summary, jobs: seq<Job>, statuses: map<Key, Status>) {
    && s.passed == CountStatus(jobs, statuses, Passed) && s.failed == CountStatus(jobs, statuses, Failed)
    && s.nonEvidence == CountStatus(jobs, statuses, NonEvidence) && s.errors == CountStatus(jobs, statuses, Errored)
    && s.notRun == CountStatus(jobs, statuses, NotRun)
    && s.total == |jobs| == s.passed + s.failed + s.nonEvidence + s.errors + s.notRun
    && TellsState(s)
  }

  lemma SettledJob(jobs: seq<Job>, lane: Lane, execute: Executor, statuses: map<Key, Status>, store: map<Key, Artifact>,
                   j: Job)
    requires LaneSettled(OfLane(jobs, lane), execute, statuses, store) && j in jobs && j.case_.lane == lane
    ensures KeyOf(j) in statuses && statuses[KeyOf(j)] == OwnStatus(execute, j) && Unchanged(j, statuses, store)
    ensures KeyAmong(OfLane(jobs, lane), KeyOf(j))
  {
    LaneMembers(jobs, lane);
    var lanes := OfLane(jobs, lane);
    var k :| 0 <= k < |lanes| && lanes[k] == j;
  }

  lemma OtherLaneKey(jobs: seq<Job>, lane: Lane, j: Job)
    requires DistinctKeys(jobs) && j in jobs && j.case_.lane != lane
    ensures !KeyAmong(OfLane(jobs, lane), KeyOf(j))
  {
    LaneMembers(jobs, lane);
    var lanes := OfLane(jobs, lane);
    forall i | 0 <= i < |lanes| ensures KeyOf(lanes[i]) != KeyOf(j) {
      assert lanes[i] in lanes;
      KeysTellApart(jobs, lanes[i], j);
    }
  }

  lemma BothLanesSettled(jobs: seq<Job>, execute: Executor, before: map<Key, Status>, storeBefore: map<Key, Artifact>,
                         statuses: map<Key, Status>, store: map<Key, Artifact>)
    requires DistinctKeys(jobs) && forall i :: 0 <= i < |jobs| ==> Laned(jobs[i])
    requires LaneSettled(OfLane(jobs, Standard), execute, before, storeBefore)
    requires LaneSettled(OfLane(jobs, Runtime), execute, statuses, store)
    requires !SomeRaised(OfLane(jobs, Standard), execute)
    requires forall k :: !KeyAmong(OfLane(jobs, Runtime), k) ==>
               SameAt(statuses, before, k) && SameAt(store, storeBefore, k)
    ensures Terminal(jobs, execute, statuses, store)
  {
    hide OfLane, DistinctKeys, LaneSettled, KeyAmong, SomeRaised;
    forall i | 0 <= i < |jobs|
      ensures KeyOf(jobs[i]) in statuses
              && statuses[KeyOf(jobs[i])] == DueStatus(execute, OfLane(jobs, Standard), jobs[i])
              && Unchanged(jobs[i], statuses, store)
    {
      assert jobs[i] in jobs;
      if jobs[i].case_.lane.Runtime? {
        SettledJob(jobs, Runtime, execute, statuses, store, jobs[i]);
      } else {
        SettledJob(jobs, Standard, execute, before, storeBefore, jobs[i]);
        OtherLaneKey(jobs, Runtime, jobs[i]);
      }
    }
  }

  lemma NotRunAfterwards(jobs: seq<Job>, execute: Executor, before: map<Key, Status>, statuses: map<Key, Status>,
                         store: map<Key, Artifact>, keys: set<Key>)
    requires DistinctKeys(jobs) && forall i :: 0 <= i < |jobs| ==> Laned(jobs[i])
    requires LaneSettled(OfLane(jobs, Standard), execute, before, store)
    requires SomeRaised(OfLane(jobs, Standard), execute)
    requires keys == set i | 0 <= i < |OfLane(jobs, Runtime)| :: KeyOf(OfLane(jobs, Runtime)[i])
    requires forall k :: SameAt(statuses, before, k) || (k in keys && k in statuses && statuses[k] == NotRun)
    requires forall k :: k in keys ==> k in statuses && statuses[k] == NotRun
    ensures Terminal(jobs, execute, statuses, store)
  {
    hide OfLane, DistinctKeys, LaneSettled, SomeRaised;
    forall i | 0 <= i < |jobs|
      ensures KeyOf(jobs[i]) in statuses
              && statuses[KeyOf(jobs[i])] == DueStatus(execute, OfLane(jobs, Standard), jobs[i])
              && Unchanged(jobs[i], statuses, store)
    {
      assert jobs[i] in jobs;
      if jobs[i].case_.lane.Runtime? {
        LaneMembers(jobs, Runtime);
        var k :| 0 <= k < |OfLane(jobs, Runtime)| && OfLane(jobs, Runtime)[k] == jobs[i];
        assert KeyOf(jobs[i]) in keys;
      } else {
        SettledJob(jobs, Standard, execute, before, store, jobs[i]);
        OtherLaneKey(jobs, Runtime, jobs[i]);
        assert KeyOf(jobs[i]) !in keys;
      }
    }
  }

  // ---------- the output loader ----------

  // The manifest's jobs with their statuses; none is the literal "planned".
  function ManifestStatuses(jobs: seq<Job>, statuses: map<Key, Status>): seq<Option<Status>> {
    seq(|jobs|, i requires 0 <= i < |jobs| =>
      if KeyOf(jobs[i]) in statuses then Some(statuses[KeyOf(jobs[i])]) else None)
  }

  function CountListed(listed: seq<Option<Status>>, s: Status): nat {
    if listed == [] then 0
    else CountListed(listed[..|listed| - 1], s) + if listed[|listed| - 1] == Some(s) then 1 else 0
  }

  // The identity checks: of the run's input, and of an artifact against its planned job (family, case id, contract
  // and, in a combined run, the ordinal, skill, path and digest of its source).
  datatype Identities = Identities(input: bool, artifact: (Job, Artifact) -> bool)

  // `load_verified_output`: recount the manifest, read every artifact again, and compare with the summary.
  method LoadOutput(ids: Identities, jobs: seq<Job>, listed: seq<Option<Status>>, store: map<Key, Artifact>,
                    summary: Summary)
    returns (ok: bool)
    requires |listed| == |jobs|
    ensures ok <==> Conforming(ids, jobs, listed, store, summary)
  {
    if !ids.input {
      return false;
    }
    var passed, failed, nonEvidence, errors, skipped := 0, 0, 0, 0, 0;
    for i := 0 to |listed|
      invariant forall j :: 0 <= j < i ==> listed[j].Some?
      invariant passed == CountListed(listed[..i], Passed) && failed == CountListed(listed[..i], Failed)
      invariant nonEvidence == CountListed(listed[..i], NonEvidence)
      invariant errors == CountListed(listed[..i], Errored) && skipped == CountListed(listed[..i], NotRun)
    {
      SnocPrefix(listed, i);
      if listed[i].None? {
        return false;
      }
      match listed[i].value
      case Passed => passed := passed + 1;
      case Failed => failed := failed + 1;
      case NonEvidence => nonEvidence := nonEvidence + 1;
      case Errored => errors := errors + 1;
      case NotRun => skipped := skipped + 1;
    }
    assert listed[..|listed|] == listed;
    if errors != 0 || skipped != 0 {
      return false;
    }
    for i := 0 to |jobs|
      invariant forall j :: 0 <= j < i ==> ReadsBack(ids, jobs[j], listed[j], store)
    {
      if !ReadsBack(ids, jobs[i], listed[i], store) {
        return false;
      }
    }
    return summary == Summary(StateFor(failed, nonEvidence, errors, skipped), passed, failed, nonEvidence, errors,
                              skipped, |jobs|);
  }

  predicate ReadsBack(ids: Identities, j: Job, listed: Option<Status>, store: map<Key, Artifact>) {
    && KeyOf(j) in store && ids.artifact(j, store[KeyOf(j)])
    && Some(ClassificationOf(store[KeyOf(j)])) == listed
  }

  ghost predicate Conforming(ids: Identities, jobs: seq<Job>, listed: seq<Option<Status>>, store: map<Key, Artifact>,
                             s: Summary)
    requires |listed| == |jobs|
  {
    && ids.input
    && (forall j :: 0 <= j < |listed| ==> listed[j].Some?)
    && CountListed(listed, Errored) == 0 && CountListed(listed, NotRun) == 0
    && (forall j :: 0 <= j < |jobs| ==> ReadsBack(ids, jobs[j], listed[j], store))
    && s.passed == CountListed(listed, Passed) && s.failed == CountListed(listed, Failed)
    && s.nonEvidence == CountListed(listed, NonEvidence) && s.errors == 0 && s.notRun == 0 && s.total == |jobs|
    && TellsState(s)
  }

  lemma {:induction false} SameCounts(jobs: seq<Job>, statuses: map<Key, Status>, s: Status)
    requires forall i :: 0 <= i < |jobs| ==> KeyOf(jobs[i]) in statuses
    ensures CountListed(ManifestStatuses(jobs, statuses), s) == CountStatus(jobs, statuses, s)
  {
    if jobs != [] {
      SameCounts(jobs[..|jobs| - 1], statuses, s);
      var listed := ManifestStatuses(jobs, statuses);
      assert listed[..|listed| - 1] == ManifestStatuses(jobs[..|jobs| - 1], statuses);
    }
  }

  lemma {:induction false} NoneCounted(jobs: seq<Job>, statuses: map<Key, Status>, s: Status, i: nat)
    requires CountStatus(jobs, statuses, s) == 0 && i < |jobs|
    ensures StatusOf(statuses, jobs[i]) != s
  {
    if i < |jobs| - 1 {
      assert jobs[..|jobs| - 1][i] == jobs[i];
      NoneCounted(jobs[..|jobs| - 1], statuses, s, i);
    }
  }

  // Input and stored artifacts are what the manifest says they are.
  ghost predicate Identified(ids: Identities, jobs: seq<Job>, store: map<Key, Artifact>) {
    ids.input
    && forall j :: 0 <= j < |jobs| && KeyOf(jobs[j]) in store ==> ids.artifact(jobs[j], store[KeyOf(jobs[j])])
  }

  // THE LOADER ACCEPTS a finished run exactly when no job errored, none was left out and the identities agree; its
  // recount is the summary the run wrote.
  lemma FinishedRunConforms(ids: Identities, jobs: seq<Job>, execute: Executor, statuses: map<Key, Status>,
                            store: map<Key, Artifact>, summary: Summary)
    requires Terminal(jobs, execute, statuses, store) && Tallies(summary, jobs, statuses)
    ensures Conforming(ids, jobs, ManifestStatuses(jobs, statuses), store, summary)
            <==> summary.errors == 0 && summary.notRun == 0 && Identified(ids, jobs, store)
  {
    hide OfLane, DueStatus, CountStatus, CountListed;
    var listed := ManifestStatuses(jobs, statuses);
    SameCounts(jobs, statuses, Passed);
    SameCounts(jobs, statuses, Failed);
    SameCounts(jobs, statuses, NonEvidence);
    SameCounts(jobs, statuses, Errored);
    SameCounts(jobs, statuses, NotRun);
    if summary.errors == 0 && summary.notRun == 0 && Identified(ids, jobs, store) {
      forall j | 0 <= j < |jobs| ensures ReadsBack(ids, jobs[j], listed[j], store) {
        NoneCounted(jobs, statuses, Errored, j);
        NoneCounted(jobs, statuses, NotRun, j);
        assert Unchanged(jobs[j], statuses, store);
      }
    }
  }
}
