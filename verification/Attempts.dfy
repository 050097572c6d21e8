// Attempts and retries (runner/eval_execute.py): what one invocation amounts to, the bounded retry loop under
// any invoker and any policy, and the attempt list of the artifact (runner/eval_engine.py:285-311,
// runner/eval_artifacts.py:145-183).

module Attempts {
  import opened Wrappers
  import opened Sequences
  import opened Evidence
  import opened Readiness

  datatype Plane = Infrastructure | Product | EvidencePlane

  datatype FailureCode =
    | HostError | InvalidResult | OuterTimeout | PreflightFailed
    | ProductTimeout | ProductError
    | EvidenceIncomplete | EvidenceUnsupported | EvidenceInvalid

  datatype AttemptFailure = AttemptFailure(plane: Plane, code: FailureCode, retrySafe: bool)

  // A result that passed `_validate_result_v1`; no evidence stands for a member that is not an object.
  datatype RunResult = RunResult(
    infrastructureError: bool, exitCode: int, timedOut: bool, evidence: Option<RuntimeEvidence>)

  datatype Exception = OuterTimeoutExpired | RunnerError(namesResult: bool) | HostException | UncaughtException

  // What one call of the invoker does. No exit code stands for one that is not an integer; no result for one
  // that does not validate.
  datatype Invocation =
    | Raised(exception: Exception)
    | Replied(hostExit: Option<int>, result: Option<RunResult>)

  type Invoker = nat -> Invocation

  datatype Attempt = Attempt(
    number: nat, hostExit: Option<int>, result: Option<RunResult>, failure: Option<AttemptFailure>)

  datatype Decision = Decision(retry: bool, reason: string, delay: real)

  datatype Delay = NotANumber | NotFinite | Seconds(seconds: real)

  datatype PolicyAnswer =
    | PolicyRaised
    | NotADecision
    | Answered(retry: bool, reason: string, delay: Delay)

  type Policy = (seq<Attempt>, Attempt) -> PolicyAnswer

  // ---------- one invocation ----------

  // `_runtime_evidence_proves_no_invocation`
  predicate ProvesNoInvocation(r: RunResult) {
    && r.evidence.Some?
    && var e := r.evidence.value;
       && e.status.Complete? && e.observations == [] && e.coverage.process.Completed?
       && e.coverage.closed == ClosedIs(true) && e.coverage.starts == Count(0)
  }

  // `_classify_result`
  function ClassifyResult(r: RunResult, hostExit: int): Option<AttemptFailure> {
    if r.infrastructureError then Some(AttemptFailure(Infrastructure, PreflightFailed, false))
    else if hostExit != 0 then Some(AttemptFailure(Infrastructure, HostError, ProvesNoInvocation(r)))
    else if r.timedOut || r.exitCode == 124 then Some(AttemptFailure(Product, ProductTimeout, false))
    else if r.exitCode != 0 then Some(AttemptFailure(Product, ProductError, false))
    else None
  }

  // `_classify_readiness`
  function ClassifyReadiness(s: Standing): Option<AttemptFailure> {
    match s
    case Ready => None
    case NotIncomplete => Some(AttemptFailure(EvidencePlane, EvidenceIncomplete, false))
    case NotSupportedHere => Some(AttemptFailure(EvidencePlane, EvidenceUnsupported, false))
    case NotValid => Some(AttemptFailure(EvidencePlane, EvidenceInvalid, false))
  }

  // A failure before any result: `None` when the exception is not one the loop catches.
  function Caught(x: Exception): Option<AttemptFailure> {
    match x
    case OuterTimeoutExpired => Some(AttemptFailure(Infrastructure, OuterTimeout, false))
    case RunnerError(namesResult) =>
      Some(AttemptFailure(Infrastructure, if namesResult then InvalidResult else PreflightFailed, false))
    case HostException => Some(AttemptFailure(Infrastructure, HostError, false))
    case UncaughtException => None
  }

  // The failure of an invocation that replied; `requirement` is given for a target, not for a judge.
  ghost function ReplyFailure(hostExit: Option<int>, result: Option<RunResult>, requirement: Option<Requirement>):
    Option<AttemptFailure>
  {
    if hostExit.None? then Some(AttemptFailure(Infrastructure, HostError, false))
    else if result.None? || (requirement.Some? && result.value.evidence.None?) then
      Some(AttemptFailure(Infrastructure, InvalidResult, false))
    else
      var failure := ClassifyResult(result.value, hostExit.value);
      if failure.None? && requirement.Some? then
        ClassifyReadiness(EngineStanding(result.value.evidence.value, requirement.value))
      else failure
  }

  predicate Survives(i: Invocation) {
    i.Raised? ==> Caught(i.exception).Some?
  }

  ghost function AttemptOf(i: Invocation, number: nat, requirement: Option<Requirement>): Attempt
    requires Survives(i)
  {
    match i
    case Raised(x) => Attempt(number, None, None, Caught(x))
    case Replied(hostExit, result) =>
      Attempt(number, hostExit, if hostExit.Some? then result else None, ReplyFailure(hostExit, result, requirement))
  }

  // ---------- what each failure says of the invocation ----------

  // The invocation came back with a result, and for a target with its evidence.
  predicate CameBack(i: Invocation, requirement: Option<Requirement>) {
    && i.Replied? && i.hostExit.Some? && i.result.Some?
    && (requirement.Some? ==> i.result.value.evidence.Some?)
  }

  // The product ran to a regular end.
  predicate RanCleanly(i: Invocation, requirement: Option<Requirement>) {
    && CameBack(i, requirement) && i.hostExit.value == 0
    && !i.result.value.infrastructureError && !i.result.value.timedOut && i.result.value.exitCode == 0
  }

  // It ran, but its evidence cannot carry the requirement.
  ghost predicate FallsShort(i: Invocation, requirement: Option<Requirement>, standing: Standing) {
    && RanCleanly(i, requirement) && requirement.Some?
    && EngineStanding(i.result.value.evidence.value, requirement.value) == standing
  }

  // The host's own exit code says that something went wrong around the product.
  predicate HostFailed(i: Invocation, requirement: Option<Requirement>) {
    CameBack(i, requirement) && !i.result.value.infrastructureError && i.hostExit.value != 0
  }

  // The product itself came to an end that is not regular.
  predicate ProductEnded(i: Invocation, requirement: Option<Requirement>) {
    CameBack(i, requirement) && !i.result.value.infrastructureError && i.hostExit.value == 0
  }

  // Complete, closed evidence of a finished process that counts no start and holds no observation.
  predicate NothingBegan(e: RuntimeEvidence) {
    && e.status.Complete? && e.coverage.process.Completed? && e.coverage.closed == ClosedIs(true)
    && e.coverage.starts == Count(0) && |e.observations| == 0
  }

  // NO FAILURE means exactly a clean run, and for a target ready evidence.
  lemma NoFailureExactly(i: Invocation, number: nat, requirement: Option<Requirement>)
    requires Survives(i)
    ensures AttemptOf(i, number, requirement).failure.None? <==>
            RanCleanly(i, requirement) && (requirement.Some? ==> FallsShort(i, requirement, Ready))
  {
    hide EngineStanding;
  }

  // EVERY FAILURE CODE, and when it is given.
  ghost predicate Earns(i: Invocation, requirement: Option<Requirement>, code: FailureCode) {
    match code
    case OuterTimeout => i == Raised(OuterTimeoutExpired)
    case HostError =>
      i == Raised(HostException) || (i.Replied? && i.hostExit.None?) || HostFailed(i, requirement)
    case InvalidResult =>
      || i == Raised(RunnerError(true))
      || (i.Replied? && i.hostExit.Some? && !CameBack(i, requirement))
    case PreflightFailed =>
      || i == Raised(RunnerError(false))
      || (CameBack(i, requirement) && i.result.value.infrastructureError)
    case ProductTimeout =>
      ProductEnded(i, requirement) && (i.result.value.timedOut || i.result.value.exitCode == 124)
    case ProductError =>
      ProductEnded(i, requirement) && !i.result.value.timedOut && i.result.value.exitCode !in {0, 124}
    case EvidenceIncomplete => FallsShort(i, requirement, NotIncomplete)
    case EvidenceUnsupported => FallsShort(i, requirement, NotSupportedHere)
    case EvidenceInvalid => FallsShort(i, requirement, NotValid)
  }

  predicate OnPlane(code: FailureCode, plane: Plane) {
    match plane
    case Infrastructure => code in {OuterTimeout, HostError, InvalidResult, PreflightFailed}
    case Product => code in {ProductTimeout, ProductError}
    case EvidencePlane => code in {EvidenceIncomplete, EvidenceUnsupported, EvidenceInvalid}
  }

  lemma FailureExactly(i: Invocation, number: nat, requirement: Option<Requirement>, code: FailureCode)
    requires Survives(i)
    ensures var f := AttemptOf(i, number, requirement).failure;
            && (f.Some? && f.value.code == code <==> Earns(i, requirement, code))
            && (f.Some? ==> OnPlane(f.value.code, f.value.plane))
            && (f.Some? ==>
                  (f.value.retrySafe <==>
                     && HostFailed(i, requirement) && i.result.value.evidence.Some?
                     && NothingBegan(i.result.value.evidence.value)))
  {
    hide EngineStanding;
  }

  // An attempt keeps what the invocation returned.
  lemma AttemptKeeps(i: Invocation, number: nat, requirement: Option<Requirement>)
    requires Survives(i)
    ensures var a := AttemptOf(i, number, requirement);
            && a.number == number
            && (i.Raised? || i.hostExit.None? ==> a.hostExit.None? && a.result.None?)
            && (i.Replied? && i.hostExit.Some? ==> a.hostExit == i.hostExit && a.result == i.result)
  {
    hide ReplyFailure;
  }

  // ---------- the policy ----------

  const NO_POLICY := "no retry policy configured"
  const EXHAUSTED := "maximum attempts reached"
  const UNSAFE := "retry blocked: not replay-safe"
  const POLICY_FAILED := "retry policy failed"
  const POLICY_INVALID := "retry policy returned an invalid decision"
  const POLICY_REJECTED := "retry policy rejected"
  const POLICY_SILENT := "retry policy returned an empty reason"

  // `_safe_policy_decision`
  function SafeDecision(policy: Policy, attempts: seq<Attempt>, latest: Attempt): Decision {
    match policy(attempts, latest)
    case PolicyRaised => Decision(false, POLICY_FAILED, 0.0)
    case NotADecision => Decision(false, POLICY_INVALID, 0.0)
    case Answered(retry, reason, delay) =>
      if !delay.Seconds? || delay.seconds < 0.0 then Decision(false, POLICY_REJECTED, 0.0)
      else if !NonBlank(reason) then Decision(false, POLICY_SILENT, 0.0)
      else Decision(retry, reason, delay.seconds)
  }

  // What is decided after the last of these attempts failed.
  function DecisionAfter(policy: Option<Policy>, max: nat, attempts: seq<Attempt>): Decision
    requires attempts != [] && attempts[|attempts| - 1].failure.Some?
  {
    var latest := attempts[|attempts| - 1];
    if |attempts| >= max then Decision(false, EXHAUSTED, 0.0)
    else if !latest.failure.value.retrySafe then Decision(false, UNSAFE, 0.0)
    else if policy.None? then Decision(false, NO_POLICY, 0.0)
    else SafeDecision(policy.value, attempts, latest)
  }

  // A policy answer that counts: a finite delay of zero or more and a reason.
  predicate Sensible(a: PolicyAnswer) {
    a.Answered? && a.delay.Seconds? && a.delay.seconds >= 0.0 && NonBlank(a.reason)
  }

  // A RETRY IS GRANTED exactly below the maximum, after a replay-safe failure, by a policy that says so sensibly; a
  // sensible answer is followed to the letter, and whatever else happens the answer is no, without a delay.
  lemma DecisionExactly(policy: Option<Policy>, max: nat, attempts: seq<Attempt>)
    requires attempts != [] && attempts[|attempts| - 1].failure.Some?
    ensures var d := DecisionAfter(policy, max, attempts);
            var latest := attempts[|attempts| - 1];
            var asked := |attempts| < max && latest.failure.value.retrySafe && policy.Some?;
            && (d.retry ==> asked)
            && (asked && Sensible(policy.value(attempts, latest)) ==>
                  var a := policy.value(attempts, latest); d == Decision(a.retry, a.reason, a.delay.seconds))
            && (!asked || !Sensible(policy.value(attempts, latest)) ==> !d.retry && d.delay == 0.0)
            && d.delay >= 0.0
            && (|attempts| >= max ==> d.reason == EXHAUSTED)
            && (|attempts| < max && !latest.failure.value.retrySafe ==> d.reason == UNSAFE)
  {
    hide NonBlank;
  }

  // What is slept: the delay of every retry that has one.
  function Delays(decisions: seq<Decision>): seq<real> {
    if decisions == [] then []
    else
      var last := decisions[|decisions| - 1];
      Delays(decisions[..|decisions| - 1]) + if last.retry && last.delay != 0.0 then [last.delay] else []
  }

  predicate GoesOn(policy: Option<Policy>, max: nat, attempts: seq<Attempt>)
    requires attempts != []
  {
    attempts[|attempts| - 1].failure.Some? && DecisionAfter(policy, max, attempts).retry
  }

  // ---------- histories ----------

  ghost predicate IsAttempt(attempts: seq<Attempt>, k: nat, invoker: Invoker, requirement: Option<Requirement>) {
    k < |attempts| && Survives(invoker(k + 1)) && attempts[k] == AttemptOf(invoker(k + 1), k + 1, requirement)
  }

  predicate WentOn(policy: Option<Policy>, max: nat, attempts: seq<Attempt>, k: nat) {
    k < |attempts| && GoesOn(policy, max, attempts[..k + 1])
  }

  // The attempts are the invocations 1, 2, 3, ... in order, each but the last one followed by leave to go on.
  ghost predicate FollowsInvoker(attempts: seq<Attempt>, invoker: Invoker, requirement: Option<Requirement>,
                                 policy: Option<Policy>, max: nat)
  {
    && (forall k :: 0 <= k < |attempts| ==> IsAttempt(attempts, k, invoker, requirement))
    && (forall k :: 0 <= k < |attempts| - 1 ==> WentOn(policy, max, attempts, k))
  }

  // One decision for every failed attempt, in order.
  ghost predicate Decides(decisions: seq<Decision>, attempts: seq<Attempt>, policy: Option<Policy>, max: nat) {
    && |decisions| <= |attempts|
    && (forall k :: 0 <= k < |attempts| ==> (k < |decisions| <==> attempts[k].failure.Some?))
    && (forall k :: 0 <= k < |decisions| ==> decisions[k] == DecisionAfter(policy, max, attempts[..k + 1]))
  }

  // The readiness kept beside the attempts: that of the last attempt that could be judged.
  ghost predicate KeepsReadiness(readiness: Option<Readiness>, attempts: seq<Attempt>,
                                 requirement: Option<Requirement>)
  {
    attempts != [] ==>
      var last := attempts[|attempts| - 1];
      requirement.Some? && last.result.Some? && last.result.value.evidence.Some? ==>
        readiness.Some?
        && readiness.value.standing == EngineStanding(last.result.value.evidence.value, requirement.value)
  }

  // `apply_evidence_readiness`
  method ApplyReadiness(result: RunResult, failure: Option<AttemptFailure>, requirement: Requirement,
                        before: Option<Readiness>)
    returns (after: Option<AttemptFailure>, readiness: Option<Readiness>)
    ensures result.evidence.None? ==>
              after == Some(AttemptFailure(Infrastructure, InvalidResult, false)) && readiness == before
    ensures result.evidence.Some? ==>
              && readiness.Some? && readiness.value.standing == EngineStanding(result.evidence.value, requirement)
              && after == if failure.None? then ClassifyReadiness(readiness.value.standing) else failure
  {
    hide EngineStanding;
    if result.evidence.None? {
      return Some(AttemptFailure(Infrastructure, InvalidResult, false)), before;
    }
    var checked := CheckEvidenceReadiness(result.evidence.value, requirement);
    readiness := Some(checked);
    after := if failure.None? then ClassifyReadiness(checked.standing) else failure;
  }

  // The body of the loop up to the record: one invocation.
  method InvokeOnce(invocation: Invocation, number: nat, requirement: Option<Requirement>, before: Option<Readiness>)
    returns (attempt: Attempt, readiness: Option<Readiness>)
    requires Survives(invocation)
    ensures attempt == AttemptOf(invocation, number, requirement)
    ensures KeepsReadiness(readiness, [attempt], requirement)
  {
    hide EngineStanding;
    var failure: Option<AttemptFailure> := None;
    readiness := before;
    if invocation.Raised? {
      return Attempt(number, None, None, Caught(invocation.exception)), before;
    }
    if invocation.hostExit.None? {
      return Attempt(number, None, None, Some(AttemptFailure(Infrastructure, HostError, false))), before;
    }
    var result := invocation.result;
    if result.None? {
      failure := Some(AttemptFailure(Infrastructure, InvalidResult, false));
    } else {
      failure := ClassifyResult(result.value, invocation.hostExit.value);
      if requirement.Some? {
        failure, readiness := ApplyReadiness(result.value, failure, requirement.value, before);
      }
    }
    attempt := Attempt(number, invocation.hostExit, result, failure);
  }

  datatype Run = Run(attempts: seq<Attempt>, decisions: seq<Decision>, readiness: Option<Readiness>, slept: seq<real>)

  // THE HISTORY OF A RUN, whatever the invoker and the policy do.
  ghost predicate History(r: Run, invoker: Invoker, requirement: Option<Requirement>, policy: Option<Policy>,
                          max: nat)
  {
    && 1 <= |r.attempts| <= max
    && FollowsInvoker(r.attempts, invoker, requirement, policy, max)
    && Decides(r.decisions, r.attempts, policy, max)
    && KeepsReadiness(r.readiness, r.attempts, requirement)
    && !GoesOn(policy, max, r.attempts)
    && r.slept == Delays(r.decisions)
  }

  lemma OneAttemptMore(attempts: seq<Attempt>, decisions: seq<Decision>, next: Attempt, invoker: Invoker,
                       requirement: Option<Requirement>, policy: Option<Policy>, max: nat)
    requires FollowsInvoker(attempts, invoker, requirement, policy, max)
    requires Decides(decisions, attempts, policy, max) && |decisions| == |attempts|
    requires attempts != [] ==> GoesOn(policy, max, attempts)
    requires Survives(invoker(|attempts| + 1))
    requires next == AttemptOf(invoker(|attempts| + 1), |attempts| + 1, requirement)
    ensures FollowsInvoker(attempts + [next], invoker, requirement, policy, max)
    ensures next.failure.None? ==> Decides(decisions, attempts + [next], policy, max)
    ensures next.failure.Some? ==>
              Decides(decisions + [DecisionAfter(policy, max, attempts + [next])], attempts + [next], policy, max)
  {
    hide AttemptOf, DecisionAfter, GoesOn;
    var all := attempts + [next];
    assert forall k :: 0 <= k < |attempts| ==> all[k] == attempts[k] && all[..k + 1] == attempts[..k + 1];
    assert attempts[..|attempts|] == attempts && all[..|attempts| + 1] == all;
    forall k | 0 <= k < |attempts| ensures IsAttempt(all, k, invoker, requirement) && WentOn(policy, max, all, k) {
      assert IsAttempt(attempts, k, invoker, requirement);
      if k < |attempts| - 1 { assert WentOn(policy, max, attempts, k); }
    }
    forall k | 0 <= k < |decisions|
      ensures all[k].failure.Some? && decisions[k] == DecisionAfter(policy, max, all[..k + 1])
    {
      assert all[k] == attempts[k] && all[..k + 1] == attempts[..k + 1];
    }
  }

  // `_run_attempts`
  method RunAttempts(invoker: Invoker, requirement: Option<Requirement>, policy: Option<Policy>, max: int)
    returns (r: Result<Run, ()>)
    ensures r.Success? ==> max >= 1 && History(r.value, invoker, requirement, policy, max)
    ensures r.Failure? ==> max < 1 || exists k: nat :: 1 <= k <= max && !Survives(invoker(k))
  {
    hide AttemptOf, DecisionAfter, EngineStanding;
    if max < 1 {
      return Failure(());
    }
    var attempts: seq<Attempt> := [];
    var decisions: seq<Decision> := [];
    var readiness: Option<Readiness> := None;
    var slept: seq<real> := [];
    var number := 1;
    while number <= max
      invariant 1 <= number <= max + 1 && |attempts| == |decisions| == number - 1
      invariant FollowsInvoker(attempts, invoker, requirement, policy, max)
      invariant Decides(decisions, attempts, policy, max)
      invariant attempts != [] ==> GoesOn(policy, max, attempts)
      invariant slept == Delays(decisions)
    {
      var invocation := invoker(number);
      if !Survives(invocation) {
        return Failure(());
      }
      var attempt, judged := InvokeOnce(invocation, number, requirement, readiness);
      readiness := judged;
      OneAttemptMore(attempts, decisions, attempt, invoker, requirement, policy, max);
      attempts := attempts + [attempt];
      if attempt.failure.None? {
        return Result.Success(Run(attempts, decisions, readiness, slept));
      }
      var decision := Decide(policy, max, attempts);
      assert (decisions + [decision])[..|decisions|] == decisions;
      decisions := decisions + [decision];
      if !decision.retry {
        return Result.Success(Run(attempts, decisions, readiness, slept));
      }
      if decision.delay != 0.0 {
        slept := slept + [decision.delay];
      }
      number := number + 1;
    }
    LastIsFinal(policy, max, attempts);
  }

  lemma LastIsFinal(policy: Option<Policy>, max: nat, attempts: seq<Attempt>)
    requires attempts != [] && |attempts| >= max
    ensures !GoesOn(policy, max, attempts)
  {}

  // The tail of the loop's body.
  method Decide(policy: Option<Policy>, max: nat, attempts: seq<Attempt>) returns (d: Decision)
    requires attempts != [] && attempts[|attempts| - 1].failure.Some?
    ensures d == DecisionAfter(policy, max, attempts)
  {
    var latest := attempts[|attempts| - 1];
    if |attempts| >= max {
      return Decision(false, EXHAUSTED, 0.0);
    }
    if !latest.failure.value.retrySafe {
      return Decision(false, UNSAFE, 0.0);
    }
    if policy.None? {
      return Decision(false, NO_POLICY, 0.0);
    }
    return SafeDecision(policy.value, attempts, latest);
  }

  // ---------- what every history shows ----------

  // A replay-safe failure is always backed by evidence that nothing was invoked.
  lemma ReplaySafeMeansNothingRan(i: Invocation, number: nat, requirement: Option<Requirement>)
    requires Survives(i) && AttemptOf(i, number, requirement).failure.Some?
    requires AttemptOf(i, number, requirement).failure.value.retrySafe
    ensures var a := AttemptOf(i, number, requirement);
            && a.result.Some? && a.hostExit.Some? && a.hostExit.value != 0
            && ProvesNoInvocation(a.result.value) && NothingBegan(a.result.value.evidence.value)
  {
    hide EngineStanding;
  }

  // Attempt k failed replay-safely, on evidence that nothing was invoked, and a retry was granted.
  predicate Retried(r: Run, k: nat) {
    && k < |r.attempts| && r.attempts[k].failure.Some? && r.attempts[k].failure.value.retrySafe
    && r.attempts[k].result.Some? && ProvesNoInvocation(r.attempts[k].result.value)
    && k < |r.decisions| && r.decisions[k].retry
  }

  // Only a last failing attempt is refused, every earlier one failed safely and was granted a retry.
  lemma EveryHistory(r: Run, invoker: Invoker, requirement: Option<Requirement>, policy: Option<Policy>, max: nat)
    requires History(r, invoker, requirement, policy, max)
    ensures forall k :: 0 <= k < |r.attempts| ==> r.attempts[k].number == k + 1
    ensures forall k :: 0 <= k < |r.attempts| - 1 ==> Retried(r, k)
    ensures |r.attempts| > 1 ==> policy.Some?
    ensures |r.decisions| == |r.attempts| - if r.attempts[|r.attempts| - 1].failure.Some? then 0 else 1
    ensures forall k :: 0 <= k < |r.decisions| ==> (r.decisions[k].retry <==> k < |r.attempts| - 1)
  {
    hide AttemptOf, ProvesNoInvocation, SafeDecision, KeepsReadiness;
    var attempts, n := r.attempts, |r.attempts|;
    assert attempts[..n] == attempts;
    forall k | 0 <= k < n ensures attempts[k].number == k + 1 {
      assert IsAttempt(attempts, k, invoker, requirement);
      NumberOf(invoker(k + 1), k + 1, requirement);
    }
    forall k | 0 <= k < n - 1 ensures Retried(r, k) {
      assert WentOn(policy, max, attempts, k) && IsAttempt(attempts, k, invoker, requirement);
      assert attempts[..k + 1][k] == attempts[k];
      ReplaySafeMeansNothingRan(invoker(k + 1), k + 1, requirement);
    }
    assert 0 <= n - 1 < n && (n - 1 < |r.decisions| <==> attempts[n - 1].failure.Some?);
    if n >= 2 { assert Retried(r, n - 2) && WentOn(policy, max, attempts, 0); }
    forall k | 0 <= k < |r.decisions| ensures r.decisions[k].retry <==> k < n - 1 {
      if k < n - 1 {
        assert Retried(r, k);
      } else {
        assert attempts[..k + 1] == attempts && !GoesOn(policy, max, attempts);
      }
    }
  }

  lemma NumberOf(i: Invocation, number: nat, requirement: Option<Requirement>)
    requires Survives(i)
    ensures AttemptOf(i, number, requirement).number == number
  {
    hide ReplyFailure;
  }

  // ---------- the artifact's attempt list ----------

  datatype AttemptJson = AttemptJson(attempt: Attempt, decision: Option<Decision>)

  function FailedCount(attempts: seq<Attempt>): nat {
    if attempts == [] then 0
    else FailedCount(attempts[..|attempts| - 1]) + if attempts[|attempts| - 1].failure.Some? then 1 else 0
  }

  // The k-th failed attempt carries the k-th decision, as far as there are decisions.
  predicate Paired(values: seq<AttemptJson>, attempts: seq<Attempt>, decisions: seq<Decision>) {
    && |values| == |attempts|
    && forall k :: 0 <= k < |values| ==>
         && values[k].attempt == attempts[k]
         && var place := FailedCount(attempts[..k]);
            values[k].decision
            == if attempts[k].failure.Some? && place < |decisions| then Some(decisions[place]) else None
  }

  // `_attempts_json`: it refuses exactly when there are more decisions than failures.
  method AttemptsJson(attempts: seq<Attempt>, decisions: seq<Decision>) returns (r: Result<seq<AttemptJson>, ()>)
    ensures r.Success? <==> |decisions| <= FailedCount(attempts)
    ensures r.Success? ==> Paired(r.value, attempts, decisions)
  {
    var values: seq<AttemptJson> := [];
    var index := 0;
    for k := 0 to |attempts|
      invariant index == if FailedCount(attempts[..k]) < |decisions| then FailedCount(attempts[..k]) else |decisions|
      invariant |values| == k
      invariant forall j :: 0 <= j < k ==>
                  && values[j].attempt == attempts[j]
                  && values[j].decision == if attempts[j].failure.Some? && FailedCount(attempts[..j]) < |decisions|
                                           then Some(decisions[FailedCount(attempts[..j])]) else None
    {
      SnocPrefix(attempts, k);
      var decision: Option<Decision> := None;
      if attempts[k].failure.Some? && index < |decisions| {
        decision := Some(decisions[index]);
        index := index + 1;
      }
      values := values + [AttemptJson(attempts[k], decision)];
    }
    assert attempts[..|attempts|] == attempts;
    if index != |decisions| {
      return Failure(());
    }
    return Result.Success(values);
  }

  // `_validate_attempts`: contiguous numbering, and a result or a failure in every attempt.
  method ValidateAttempts(values: seq<AttemptJson>) returns (ok: bool)
    ensures ok <==> Contiguous(values)
  {
    for k := 0 to |values|
      invariant forall j :: 0 <= j < k ==>
                  && (values[j].attempt.result.Some? || values[j].attempt.failure.Some?)
                  && values[j].attempt.number == j + 1
    {
      if values[k].attempt.result.None? && values[k].attempt.failure.None? {
        return false;
      }
      if values[k].attempt.number != k + 1 {
        return false;
      }
    }
    return true;
  }

  predicate Contiguous(values: seq<AttemptJson>) {
    forall j :: 0 <= j < |values| ==>
      (values[j].attempt.result.Some? || values[j].attempt.failure.Some?) && values[j].attempt.number == j + 1
  }

  lemma {:induction false} AllFailed(attempts: seq<Attempt>)
    requires forall k :: 0 <= k < |attempts| ==> attempts[k].failure.Some?
    ensures FailedCount(attempts) == |attempts|
  {
    if attempts != [] { AllFailed(attempts[..|attempts| - 1]); }
  }

  // A HISTORY IS ALWAYS ACCEPTED: the list is built, each failed attempt carries its own decision, and the
  // numbering validates.
  lemma HistoriesAreAccepted(r: Run, invoker: Invoker, requirement: Option<Requirement>, policy: Option<Policy>,
                             max: nat, values: seq<AttemptJson>)
    requires History(r, invoker, requirement, policy, max)
    ensures |r.decisions| == FailedCount(r.attempts)
    ensures Paired(values, r.attempts, r.decisions) ==>
              && Contiguous(values)
              && forall k :: 0 <= k < |values| ==>
                   values[k].decision == if k < |r.decisions| then Some(r.decisions[k]) else None
  {
    hide AttemptOf, DecisionAfter, FollowsInvoker, KeepsReadiness, GoesOn, FailedCount, IsAttempt;
    EveryHistory(r, invoker, requirement, policy, max);
    FailuresCounted(r);
    forall k | 0 <= k < |r.attempts| ensures r.attempts[k].result.Some? || r.attempts[k].failure.Some? {
      AttemptIsAnswered(r.attempts, invoker, requirement, policy, max, k);
    }
  }

  lemma AttemptIsAnswered(attempts: seq<Attempt>, invoker: Invoker, requirement: Option<Requirement>,
                          policy: Option<Policy>, max: nat, k: nat)
    requires FollowsInvoker(attempts, invoker, requirement, policy, max) && k < |attempts|
    ensures attempts[k].result.Some? || attempts[k].failure.Some?
  {
    hide AttemptOf, GoesOn;
    assert IsAttempt(attempts, k, invoker, requirement);
    SomethingHappened(invoker(k + 1), k + 1, requirement);
  }

  // All attempts but perhaps the last one failed, so counting failures counts attempts.
  lemma FailuresCounted(r: Run)
    requires r.attempts != [] && forall k :: 0 <= k < |r.attempts| - 1 ==> Retried(r, k)
    ensures forall k :: 0 <= k < |r.attempts| ==> FailedCount(r.attempts[..k]) == k
    ensures FailedCount(r.attempts) == |r.attempts| - if r.attempts[|r.attempts| - 1].failure.Some? then 0 else 1
  {
    hide ProvesNoInvocation, FailedCount;
    var attempts, n := r.attempts, |r.attempts|;
    forall k | 0 <= k < n ensures FailedCount(attempts[..k]) == k {
      forall j | 0 <= j < k ensures attempts[..k][j].failure.Some? { assert Retried(r, j); }
      AllFailed(attempts[..k]);
    }
    CountSnoc(attempts);
  }

  lemma CountSnoc(attempts: seq<Attempt>)
    requires attempts != []
    ensures FailedCount(attempts)
            == FailedCount(attempts[..|attempts| - 1]) + if attempts[|attempts| - 1].failure.Some? then 1 else 0
  {}

  lemma SomethingHappened(i: Invocation, number: nat, requirement: Option<Requirement>)
    requires Survives(i)
    ensures AttemptOf(i, number, requirement).result.Some? || AttemptOf(i, number, requirement).failure.Some?
  {
    hide EngineStanding;
  }
}
