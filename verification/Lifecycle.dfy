// One evaluation from target to verdict (runner/eval_engine.py:70-285, runner/eval_classification.py:56-112),
// with profile callbacks that may raise or return anything.

module Classification {
  import opened Wrappers
  import opened Readiness
  import opened Attempts

  // A status as a profile may write it.
  datatype Mark = MarkPass | MarkFail | MarkNonEvidence | MarkOther(text: string)

  datatype Verdict = VerdictPass | VerdictFail | VerdictNonEvidence

  predicate SomeMark(checks: seq<Mark>, mark: Mark) {
    exists i :: 0 <= i < |checks| && checks[i] == mark
  }

  predicate AllPass(checks: seq<Mark>) {
    forall i :: 0 <= i < |checks| ==> checks[i].MarkPass?
  }

  // `classify_evaluation`
  function Classify(targetFailure: Option<AttemptFailure>, standing: Option<Standing>, checks: seq<Mark>,
                    judgeRequired: bool, judgeFailure: Option<AttemptFailure>, semantic: Option<Mark>): Verdict
  {
    if targetFailure.Some? then VerdictNonEvidence
    else if standing.None? || !standing.value.Ready? then VerdictNonEvidence
    else if judgeRequired && (judgeFailure.Some? || semantic.None?) then VerdictNonEvidence
    else if SomeMark(checks, MarkFail) then VerdictFail
    else if !AllPass(checks) then VerdictNonEvidence
    else if semantic.Some? then
      (match semantic.value
       case MarkFail => VerdictFail
       case MarkPass => VerdictPass
       case _ => VerdictNonEvidence)
    else if !judgeRequired then VerdictPass
    else VerdictNonEvidence
  }

  predicate Authorized(targetFailure: Option<AttemptFailure>, standing: Option<Standing>, judgeRequired: bool,
                       judgeFailure: Option<AttemptFailure>, semantic: Option<Mark>)
  {
    targetFailure.None? && standing == Some(Ready) && (judgeRequired ==> judgeFailure.None? && semantic.Some?)
  }

  // A verdict is given exactly on these grounds; anything else is non-evidence.
  lemma VerdictExactly(targetFailure: Option<AttemptFailure>, standing: Option<Standing>, checks: seq<Mark>,
                       judgeRequired: bool, judgeFailure: Option<AttemptFailure>, semantic: Option<Mark>)
    ensures var v := Classify(targetFailure, standing, checks, judgeRequired, judgeFailure, semantic);
            var allowed := Authorized(targetFailure, standing, judgeRequired, judgeFailure, semantic);
            && (v == VerdictPass <==> allowed && AllPass(checks) && (semantic.Some? ==> semantic.value.MarkPass?))
            && (v == VerdictFail <==>
                  allowed && (SomeMark(checks, MarkFail) || (AllPass(checks) && semantic == Some(MarkFail))))
  {}
}

module Lifecycle {
  import opened Wrappers
  import opened Readiness
  import opened Attempts
  import opened Classification

  // What a project callback does: return something, or raise.
  datatype Callback<+T> = Returned(value: T) | RaisedError

  // A judge specification is told apart by a number; Malformed is a value of another type.
  datatype JudgeAnswer = NoJudge | JudgeSpec(spec: nat) | MalformedSpec

  // A semantic decision; `wellFormed` says that its summary is a string and its data JSON.
  datatype SemanticAnswer = NotSemantic | Semantic(mark: Mark, wellFormed: bool)

  // No checks stands for a list that holds something that is not a check outcome.
  datatype Profile = Profile(
    checks: (Attempt, Readiness) -> Callback<Option<seq<Mark>>>,
    judgeSpec: (Attempt, seq<Mark>) -> Callback<JudgeAnswer>,
    parseJudge: Attempt -> Callback<SemanticAnswer>)

  datatype Judge = Judge(invoker: nat -> Invoker, policy: Option<Policy>, max: int)

  datatype Evaluation = Evaluation(
    verdict: Verdict, target: Run, checks: seq<Mark>, judgeRequired: bool, judge: Option<Run>,
    contractFailure: Option<AttemptFailure>, semantic: Option<Mark>)

  const CONTRACT_FAILURE := AttemptFailure(Infrastructure, InvalidResult, false)

  // ---------- what is owed to the callbacks ----------

  function LastOf(r: Run): Attempt
    requires r.attempts != []
  {
    r.attempts[|r.attempts| - 1]
  }

  function StandingFrom(r: Run): Option<Standing> {
    if r.readiness.Some? then Some(r.readiness.value.standing) else None
  }

  predicate Usable(target: Run)
    requires target.attempts != []
  {
    LastOf(target).failure.None? && StandingFrom(target) == Some(Ready)
  }

  // The checks the profile really returned.
  predicate ReturnsChecks(profile: Profile, target: Run, checks: seq<Mark>)
    requires target.attempts != [] && target.readiness.Some?
  {
    profile.checks(LastOf(target), target.readiness.value) == Returned(Some(checks))
  }

  predicate ParsesTo(profile: Profile, judge: Run, mark: Mark)
    requires judge.attempts != []
  {
    && (mark.MarkPass? || mark.MarkFail?)
    && profile.parseJudge(LastOf(judge)) == Returned(Semantic(mark, true))
  }

  // The final attempt is what the last invocation returned, and the product ran to a regular end in it: host and
  // product exited with zero, in time and without an infrastructure error.
  predicate EndsCleanly(r: Run, invoker: Invoker)
    requires r.attempts != []
  {
    var last := LastOf(r);
    && last.failure.None? && last.hostExit == Some(0) && last.result.Some?
    && !last.result.value.infrastructureError && !last.result.value.timedOut && last.result.value.exitCode == 0
    && invoker(|r.attempts|) == Replied(last.hostExit, last.result)
  }

  // The evidence of the final attempt itself carries the requirement.
  ghost predicate EvidencedBy(target: Run, invoker: Invoker, requirement: Requirement)
    requires target.attempts != []
  {
    var last := LastOf(target);
    && EndsCleanly(target, invoker) && last.result.value.evidence.Some?
    && EngineStanding(last.result.value.evidence.value, requirement) == Ready
  }

  // Nothing was asked of a judge, or the judge ran to the end and was read as `mark`.
  ghost predicate Judged(profile: Profile, e: Evaluation, mark: Mark)
    requires e.target.attempts != []
  {
    match profile.judgeSpec(LastOf(e.target), e.checks)
    case Returned(NoJudge) => mark.MarkPass?
    case Returned(JudgeSpec(_)) =>
      e.judge.Some? && e.judge.value.attempts != [] && LastOf(e.judge.value).failure.None?
      && ParsesTo(profile, e.judge.value, mark)
    case _ => false
  }

  ghost predicate CleanPass(profile: Profile, e: Evaluation)
    requires e.target.attempts != []
  {
    && Usable(e.target) && ReturnsChecks(profile, e.target, e.checks) && AllPass(e.checks)
    && Judged(profile, e, MarkPass)
  }

  ghost predicate CleanFail(profile: Profile, e: Evaluation)
    requires e.target.attempts != []
  {
    && Usable(e.target) && ReturnsChecks(profile, e.target, e.checks)
    && ((SomeMark(e.checks, MarkFail) && (Judged(profile, e, MarkPass) || Judged(profile, e, MarkFail)))
        || (AllPass(e.checks) && Judged(profile, e, MarkFail)
            && profile.judgeSpec(LastOf(e.target), e.checks) != Returned(NoJudge)))
  }

  // The judge, if it ran, ran the attempts of the specification the profile gave.
  ghost predicate JudgeRanAsAsked(profile: Profile, judge: Judge, e: Evaluation)
    requires e.target.attempts != []
  {
    e.judge.Some? ==>
      var answer := profile.judgeSpec(LastOf(e.target), e.checks);
      && answer.Returned? && answer.value.JudgeSpec? && judge.max >= 1
      && History(e.judge.value, judge.invoker(answer.value.spec), None, judge.policy, judge.max)
  }

  // A callback of the profile raised, or answered with something the engine does not accept.
  ghost predicate CallbackFailed(profile: Profile, e: Evaluation)
    requires e.target.attempts != []
  {
    var last := LastOf(e.target);
    || (e.target.readiness.Some?
        && profile.checks(last, e.target.readiness.value) in {RaisedError, Returned(None)})
    || profile.judgeSpec(last, e.checks) in {RaisedError, Returned(MalformedSpec)}
    || (e.judge.Some? && e.judge.value.attempts != [] && JudgeAsked(profile, e)
        && !exists mark :: ParsesTo(profile, e.judge.value, mark))
  }

  predicate JudgeAsked(profile: Profile, e: Evaluation)
    requires e.target.attempts != []
  {
    var answer := profile.judgeSpec(LastOf(e.target), e.checks);
    answer.Returned? && answer.value.JudgeSpec?
  }

  // What every phase left behind: without a usable target nothing was asked; with one, the judge ran exactly if the
  // profile gave a specification, its answer is what the profile read, and a broken contract is one of the engine's.
  ghost predicate TellsPhases(profile: Profile, e: Evaluation)
    requires e.target.attempts != []
  {
    var spec := profile.judgeSpec(LastOf(e.target), e.checks);
    var judgeEnded := e.judge.Some? && e.judge.value.attempts != [] && LastOf(e.judge.value).failure.None?;
    && (!Usable(e.target) ==> e.checks == [] && !e.judgeRequired)
    && (Usable(e.target) ==> ReturnsChecks(profile, e.target, e.checks) || e.checks == [MarkNonEvidence])
    && (Usable(e.target) ==> (e.judgeRequired <==> spec != Returned(NoJudge)))
    && (e.judge.Some? <==> Usable(e.target) && JudgeAsked(profile, e))
    && (forall mark :: e.semantic == Some(mark) <==> judgeEnded && ParsesTo(profile, e.judge.value, mark))
    && (e.contractFailure.Some? <==>
          || (Usable(e.target) && spec in {RaisedError, Returned(MalformedSpec)})
          || (judgeEnded && e.semantic.None?))
    && (e.contractFailure.Some? ==> e.contractFailure.value == AttemptFailure(Infrastructure, InvalidResult, false))
  }

  lemma RaisingCallbacksGiveNoVerdict(profile: Profile, e: Evaluation)
    requires e.target.attempts != [] && CallbackFailed(profile, e)
    ensures !CleanPass(profile, e) && !CleanFail(profile, e)
  {}

  // ---------- the phases ----------

  // The deterministic checks: a raising or malformed callback leaves one non-evidence check.
  method RunChecks(profile: Profile, target: Run) returns (checks: seq<Mark>)
    requires target.attempts != [] && target.readiness.Some?
    ensures ReturnsChecks(profile, target, checks)
            || (checks == [MarkNonEvidence]
                && forall given :: profile.checks(LastOf(target), target.readiness.value) != Returned(Some(given)))
  {
    match profile.checks(LastOf(target), target.readiness.value)
    case Returned(Some(given)) => return given;
    case Returned(None) => return [MarkNonEvidence];
    case RaisedError => return [MarkNonEvidence];
  }

  // `_validated_semantic` on what the profile read from the judge.
  method ReadJudge(profile: Profile, last: Attempt) returns (semantic: Option<Mark>, failure: Option<AttemptFailure>)
    ensures semantic.Some? <==> failure.None?
    ensures failure.Some? ==> failure.value == AttemptFailure(Infrastructure, InvalidResult, false)
    ensures forall mark :: semantic == Some(mark) <==>
              (mark.MarkPass? || mark.MarkFail?) && profile.parseJudge(last) == Returned(Semantic(mark, true))
  {
    var answer := profile.parseJudge(last);
    if answer.Returned? && answer.value.Semantic? && (answer.value.mark.MarkPass? || answer.value.mark.MarkFail?)
       && answer.value.wellFormed {
      return Some(answer.value.mark), None;
    }
    return None, Some(CONTRACT_FAILURE);
  }

  // `evaluate_target_outcome`
  method EvaluateTarget(target: Run, profile: Profile, judge: Judge) returns (r: Result<Evaluation, ()>)
    requires target.attempts != []
    ensures r.Success? ==>
              && r.value.target == target
              && (r.value.verdict == VerdictPass <==> CleanPass(profile, r.value))
              && (r.value.verdict == VerdictFail <==> CleanFail(profile, r.value))
              && JudgeRanAsAsked(profile, judge, r.value) && TellsPhases(profile, r.value)
              && (CallbackFailed(profile, r.value) ==> r.value.verdict == VerdictNonEvidence)
  {
    hide Classify, History, SomeMark, AllPass;
    var last := LastOf(target);
    var checks: seq<Mark> := [];
    var judgeRequired := false;
    var judged: Option<Run> := None;
    var contractFailure: Option<AttemptFailure> := None;
    var semantic: Option<Mark> := None;
    var judgeFailure: Option<AttemptFailure> := None;
    if last.failure.None? && target.readiness.Some? && target.readiness.value.standing.Ready? {
      checks := RunChecks(profile, target);
      var answer := profile.judgeSpec(last, checks);
      if answer.RaisedError? || answer.value.MalformedSpec? {
        judgeRequired := true;
        contractFailure := Some(CONTRACT_FAILURE);
      } else if answer.value.JudgeSpec? {
        judgeRequired := true;
        var spec := answer.value.spec;
        var run := RunAttempts(judge.invoker(spec), None, judge.policy, judge.max);
        if run.Failure? {
          return Failure(());
        }
        RunsAreNotEmpty(run.value, judge.invoker(spec), judge.policy, judge.max);
        judged := Some(run.value);
        if LastOf(run.value).failure.None? {
          semantic, contractFailure := ReadJudge(profile, LastOf(run.value));
        }
      }
      judgeFailure := contractFailure;
      if judged.Some? && LastOf(judged.value).failure.Some? {
        judgeFailure := LastOf(judged.value).failure;
      }
    }
    var verdict := Classify(last.failure, StandingFrom(target), checks, judgeRequired, judgeFailure, semantic);
    VerdictExactly(last.failure, StandingFrom(target), checks, judgeRequired, judgeFailure, semantic);
    LoneNonEvidence();
    r := Result.Success(Evaluation(verdict, target, checks, judgeRequired, judged, contractFailure, semantic));
    if CallbackFailed(profile, r.value) { RaisingCallbacksGiveNoVerdict(profile, r.value); }
  }

  lemma LoneNonEvidence()
    ensures !AllPass([MarkNonEvidence]) && !SomeMark([MarkNonEvidence], MarkFail)
  {
    assert [MarkNonEvidence][0] == MarkNonEvidence;
  }

  lemma RunsAreNotEmpty(r: Run, invoker: Invoker, policy: Option<Policy>, max: nat)
    requires History(r, invoker, None, policy, max)
    ensures r.attempts != []
  {}

  // A final attempt without a failure was a clean run.
  lemma NoFailureIsClean(r: Run, invoker: Invoker, requirement: Option<Requirement>, policy: Option<Policy>, max: nat)
    requires History(r, invoker, requirement, policy, max) && LastOf(r).failure.None?
    ensures EndsCleanly(r, invoker)
    ensures requirement.Some? ==> EvidencedBy(r, invoker, requirement.value)
  {
    hide EngineStanding, DecisionAfter, AttemptOf, KeepsReadiness;
    var n := |r.attempts|;
    assert IsAttempt(r.attempts, n - 1, invoker, requirement);
    NoFailureExactly(invoker(n), n, requirement);
    AttemptKeeps(invoker(n), n, requirement);
  }

  // A usable final attempt brought its own evidence, whatever earlier attempts left behind.
  lemma UsableMeansOwnEvidence(r: Run, invoker: Invoker, requirement: Requirement, policy: Option<Policy>, max: nat)
    requires History(r, invoker, Some(requirement), policy, max) && LastOf(r).failure.None?
    ensures EvidencedBy(r, invoker, requirement)
    ensures StandingFrom(r) == Some(Ready)
  {
    hide EngineStanding, DecisionAfter, FollowsInvoker, Decides;
    NoFailureIsClean(r, invoker, Some(requirement), policy, max);
  }

  // A judge that was asked ran to a regular end.
  ghost predicate JudgedCleanly(profile: Profile, judge: Judge, e: Evaluation)
    requires e.target.attempts != []
  {
    var answer := profile.judgeSpec(LastOf(e.target), e.checks);
    answer.Returned? && answer.value.JudgeSpec? ==>
      && e.judge.Some? && e.judge.value.attempts != []
      && EndsCleanly(e.judge.value, judge.invoker(answer.value.spec))
  }

  lemma VerdictsAreJudgedCleanly(profile: Profile, judge: Judge, e: Evaluation)
    requires e.target.attempts != [] && (CleanPass(profile, e) || CleanFail(profile, e))
    requires JudgeRanAsAsked(profile, judge, e)
    ensures JudgedCleanly(profile, judge, e)
  {
    hide FollowsInvoker, Decides, KeepsReadiness, EndsCleanly, GoesOn;
    var answer := profile.judgeSpec(LastOf(e.target), e.checks);
    if answer.Returned? && answer.value.JudgeSpec? {
      NoFailureIsClean(e.judge.value, judge.invoker(answer.value.spec), None, judge.policy, judge.max);
    }
  }

  // `run_evaluation_phase`. A PASS OR A FAIL rests on the evidence of the final target attempt, on checks that were
  // really returned, and on a judge that, when asked for, ran to the end and was read; everything else is
  // non-evidence.
  method RunEvaluationPhase(invoker: Invoker, requirement: Requirement, policy: Option<Policy>, max: int,
                            profile: Profile, judge: Judge)
    returns (r: Result<Evaluation, ()>)
    ensures r.Success? ==>
              && max >= 1 && History(r.value.target, invoker, Some(requirement), policy, max)
              && (r.value.verdict == VerdictPass <==> CleanPass(profile, r.value))
              && (r.value.verdict == VerdictFail <==> CleanFail(profile, r.value))
              && (r.value.verdict != VerdictNonEvidence ==> EvidencedBy(r.value.target, invoker, requirement))
              && (r.value.verdict != VerdictNonEvidence ==> JudgedCleanly(profile, judge, r.value))
              && JudgeRanAsAsked(profile, judge, r.value) && TellsPhases(profile, r.value)
              && (CallbackFailed(profile, r.value) ==> r.value.verdict == VerdictNonEvidence)
  {
    hide CleanPass, CleanFail, EvidencedBy, FollowsInvoker, Decides, KeepsReadiness, JudgeRanAsAsked, JudgedCleanly,
      TellsPhases;
    var target := RunAttempts(invoker, Some(requirement), policy, max);
    if target.Failure? {
      return Failure(());
    }
    r := EvaluateTarget(target.value, profile, judge);
    if r.Success? && r.value.verdict != VerdictNonEvidence {
      VerdictsAreUsable(profile, r.value);
      UsableMeansOwnEvidence(target.value, invoker, requirement, policy, max);
      VerdictsAreJudgedCleanly(profile, judge, r.value);
    }
  }

  lemma VerdictsAreUsable(profile: Profile, e: Evaluation)
    requires e.target.attempts != [] && (CleanPass(profile, e) || CleanFail(profile, e))
    ensures LastOf(e.target).failure.None?
  {}
}
