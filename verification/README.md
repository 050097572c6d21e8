# Verification of the evaluation runner

A Dafny model of the decision-making parts of the evaluation runner, with proofs of what they promise. It covers the
path of runtime evidence from the in-process observer to a published verdict, and the codecs, redaction and run
orchestration around it.

| files | part of the system |
|---|---|
| Vocabulary, Records | shared names, JSON values, records, the public evidence object |
| Accounting, AccountingSpec, AccountingLaws, AccountingDetail, AccountingReading, AccountingLoop | the accounting state machine: a fold, its declarative reading, its laws, its counters and codes on orderly and on any streams, the loop in place |
| Observer, ObserverRuns, RunBooks, QuietRuns, CarriedCalls | the observer as an object, every interleaving of its callbacks, and its runs end to end |
| Loader, LoadedLines, LoadedEvidence | the line loader, what each line loads as, loss detection, and the pipeline from received bytes |
| Builder, Intake, IntakeReading, Validator, Agreement, Publication, CaptureStatus, EvidenceLoops | builder and validator, and the theorem that they agree |
| PublishedFields, PublishedCoverage, ValidatedEvidence | what the public evidence says of every record and of the capture, and what any validated object guarantees |
| Readiness, PipelineAnswers | the two readiness evaluators and what each answers |
| Assertions, AssertionLaws, AssertionSharpness, CheckMeaning | the three-valued assertion evaluator, its truth and its precision, and what each check says |
| Attempts, Lifecycle | retries and the way from a target to a verdict |
| CaseId, Paths, Yaml | the three codecs with their decoders |
| Redaction, Window | redaction of text and trees, the sliding window of tool events |
| Run | planning, lanes, statuses and the output loader |

Code that changes state step by step is modelled by classes and methods with loops, proved against functions or
relations; code made of expressions is modelled by functions. `dafny verify dfyconfig.toml` checks the whole project.

Where the code does less than its documentation suggests, the code is kept and the exact condition is proved:

- A registered tool named `execute` that runs Code Mode tools yields invalid evidence even when nothing went wrong:
  complete evidence needs the outer call to come through the execute.before hook, with the same agent, and to be
  written before its child and before its own terminal (`QuietRuns.QuietRunIsComplete`,
  `QuietRuns.RegisteredExecuteIsInvalid`).
- The builder reads a tool given as a bare string as an identity but not as the tool of an outer call; the validator
  reads the published field. A bare string other than `execute` on an outer call makes the builder raise
  (`Publication.PublishableExactly`, `LoadedEvidence.BareToolIsRejected`).
- The accounting treats the process state `unsupported` like `completed` (`AccountingSpec.CompleteExactly`); the
  builder never passes it on.
- Readiness does not imply a complete status: evidence that is ready for a boundary is complete exactly when its
  transport could observe (`ReadinessLaws.ReadyMeansComplete`, `ReadinessLaws.UnobservedIsReady`).
- A variant can survive redaction when it can overlap the marker. One variant is never left behind exactly when it is
  harmless, and harmless is exactly what no inventory and no text can defeat (`Redaction.OneVariantExactly`,
  `Redaction.EveryInventoryExactly`); a survivor is `Redaction.TouchingVariantSurvives`.
- "Non-evidence" does not always mean that the withheld parts could decide. For tools, actions, alternatives and tool
  results, `occurrence` and `after` included, the exact condition under which one completion satisfies the assertion
  and another does not is proved (`AssertionSharpness.SharpExactly`, `AssertionSharpness.ExistenceSharpExactly`; a
  verdict that is only cautious is `AssertionLaws.ResultVerdictIsCautious`).
- A tool event whose status is a list or an object makes the extraction of tool results raise
  (`Window.ExtractToolResults`).

Combined case ids are injective on code units (`CaseId.SameIdExactly`). On strings they are injective exactly where no
lone high surrogate stands directly before a lone low one (`CaseId.Utf16Exactly`, `CaseId.PairsCollide`). The function
alone accepts such strings; its caller (runner/eval_input.py:422) passes text decoded from strict UTF-8 JSON, where an
escaped high surrogate followed by an escaped low one is already one character, so the loader never produces them.

## Model

| member | source | states |
|---|---|---|
| AccountingLoop.AccountRuntimeEvidence | container/runtime_evidence.py:204-445 | the in-place loop over coverage, boundaries, calls, sequences and issues returns exactly the account of the fold over the stream, on every input including the rejected ones |
| AccountingSpec.RunMatches | container/runtime_evidence.py:299-387 | after any stream: no fault is counted if and only if every event is well formed and fits after the ones before it; then seen sequences, calls and boundary statuses say exactly what the events say |
| AccountingSpec.AccountMeetsSpec | container/runtime_evidence.py:204-445 | the overall status and every boundary status are the ones a declarative reading of stream, declaration and environment gives; an invalid account is invalid at every boundary |
| AccountingSpec.CompleteExactly | container/runtime_evidence.py:396-445 | the status is complete if and only if the capture is closed, all counters are zero, the process completed (or is the literal unsupported), the stream is well formed and orderly, every start is closed, no required field is omitted and some supported boundary has no unsupported field |
| AccountingSpec.SettleEffect | container/runtime_evidence.py:389-394 | settling marks incomplete exactly the boundaries that hold an open call and changes nothing else |
| AccountingSpec.ConcludedIssues | container/runtime_evidence.py:396-422 | the issue list is globally invalid exactly when the ledger counted a fault and globally incomplete exactly when the environment is degraded |
| AccountingLaws.EventsAreConserved | container/runtime_evidence.py:299-394 | stream length is starts + terminals + malformed + duplicate sequences + duplicate invocations + ambiguous ones; starts are terminals + missing terminals, globally and at each boundary, and boundary counts sum to the totals |
| AccountingLaws.InvalidIsForever | container/runtime_evidence.py:421-445 | if a prefix of the stream accounts as invalid then every extension does, at every boundary |
| AccountingLaws.NoBetterStatus | container/runtime_evidence.py:396-438 | raising a failure or loss counter, un-closing the capture or moving from completed to a stopped process never improves the overall status or any boundary's |
| AccountingDetail.OrderlyBoundaries | container/runtime_evidence.py:299-438 | an orderly stream leaves every boundary with exactly the counts of its starts, terminals and omitted or unsupported fields, and with exactly the issue codes that have a cause there |
| AccountingDetail.OrderlyIssues | container/runtime_evidence.py:396-419 | the issue list of an orderly account holds each code exactly when its own cause is there: the six of the environment, and missing terminals, omitted or unsupported fields, unsupported and undeclared boundaries |
| AccountingDetail.DisorderlyBoundaries | container/runtime_evidence.py:421-438 | a disorderly stream makes every boundary invalid and marks it as part of an invalid capture |
| AccountingReading.AnyStream | container/runtime_evidence.py:299-445 | for every stream, however damaged: boundaries are those declared and those visited, each counter is the number of events it stands for, and each issue code of a boundary is left by an event that earns it, by the declaration, by a call that stays open or by the capture as a whole |
| Observer.RuntimeObserver.Emit | container/native_observer.ts:180-198 | a write spends a sequence number and either appends the event with the counters of that moment or counts an observer failure |
| Observer.RuntimeObserver.StartWrapped | container/native_observer.ts:299-312 | the whole new state of the observer when a wrapped registered tool is entered, key clash included |
| Observer.RuntimeObserver.StartHook | container/native_observer.ts:413-442 | the same for the execute.before hook, including the case of a call already active on the key |
| Observer.RuntimeObserver.WriteStart | container/native_observer.ts:200-213 | the rest of either start once the parent session has answered: what is counted and what is written |
| Observer.RuntimeObserver.StartCode | container/native_observer.ts:340-362 | a Code Mode call without an active outer call is not observed; otherwise what is counted and written |
| Observer.RuntimeObserver.FinishCode | container/native_observer.ts:363-400 | the terminal of a Code Mode call, success or error |
| Observer.RuntimeObserver.FinishNative | container/native_observer.ts:215-262 | a session event closes the call active on its key and writes its terminal; other events change nothing |
| Observer.RuntimeObserver.FinishOuter | container/native_observer.ts:456-470 | the after hook, or the end of a wrapped execute, forgets the outer call of its key and nothing else |
| Observer.RuntimeObserver.FailCallback | container/native_observer.ts:415-423 | a malformed event or a broken subscription only counts a callback failure |
| Observer.RuntimeObserver.FailSocket | container/native_observer.ts:30-32 | a socket error only counts an observer failure |
| Observer.RuntimeObserver.Stop | container/native_observer.ts:472-486 | disposal writes the end with the counters of that moment |
| ObserverInvariant.EveryRunIsAccounted | container/native_observer.ts:215-262 | in every reachable interleaving native starts are native terminals + active calls + overwritten keys, and overwritten keys never exceed the observer failures |
| ObserverMirror.TakeStartMirrors | container/runtime_evidence.py:642-662 | a start record written next enters the builder's intake as the start of its call and keeps the intake a mirror of the observer's books |
| ObserverMirror.TakeTerminalMirrors | container/runtime_evidence.py:642-662 | the same for a terminal record |
| ObserverMirror.QuietStep | container/native_observer.ts:215-486 | every callback that causes no failure and withholds no field keeps the mirror, whatever the interleaving |
| ObserverMirror.QuietRunMirrors | container/native_observer.ts:264-486 | after any untroubled run the builder's intake of what was sent holds exactly the calls begun and closed, with matching identities, labels and line order |
| QuietRuns.TakeIsPlaced | container/runtime_evidence.py:642-662 | an intake without a fault keeps every record at the number of the line that carried it, and nothing else |
| RunBooks.RunIsStamped | container/native_observer.ts:180-198 | in every run, whatever the socket loses, the lines that were sent carry strictly increasing numbers below the next one and none of them ends the capture |
| RunBooks.WholeRunIsBooked | container/native_observer.ts:215-442 | after any run that lost no write, whatever failed in it, the lines are an open transcript whose kinds count as the counters do, every call begun has its start line or is pending, only closed calls have a terminal line and nothing active is closed |
| RunBooks.RunLoadsExactly | container/native_observer.ts:472-486 | such a run, disposed, loads without an issue if and only if no start is pending and the record limit is kept; within the limit a pending start is reported as a count mismatch and nothing else |
| QuietRuns.QuietRunIsComplete | container/native_observer.ts:264-486 | an untroubled run disposed with every call closed loads without an issue; its evidence is complete if and only if each native start was written before its terminal and each Code Mode call has a hooked outer call of the same agent written before it, and is invalid otherwise |
| QuietRuns.RegisteredExecuteIsInvalid | container/native_observer.ts:296-334 | the run the condition shuts out: a registered tool named execute with one Code Mode child, everything written in order and closed, gives invalid evidence |
| QuietRuns.LossyIsNeverComplete | container/native_observer.py:65-94 | of a full transcript, if anything is dropped, cut off or reported by the transport, the evidence is never complete |
| QuietRuns.TroubleIsNeverComplete | container/native_observer.ts:472-486 | an observer that counted a failure before it stopped never yields complete evidence |
| QuietRuns.OnlyWholeRunsAreComplete | container/native_observer.ts:264-486 | for every run up to its disposal, every thinned delivery of what it sent and every transport issue: complete evidence means that no write and no line was lost, nothing was cut off or reported, no failure was counted, the process finished and no call is pending or active |
| CarriedCalls.CallIsPublished | container/native_observer.ts:200-262 | in any run that lost no write, whatever else failed, a native call whose start was written and which was closed later is published as it was reported: identity, session parent and input of its start, outcome and payload of its end |
| Loader.LoadRuntimeObservations | container/native_observer.py:112-264 | the loop over the lines and the final checks return the capture the line-by-line reading defines, for every source |
| LossDetection.LoaderReturnsLoaderCaptures | container/native_observer.py:82-264 | whatever arrives, the issues are from the loader's vocabulary and a capture without its start has an issue |
| LossDetection.RecordsInLineOrder | container/native_observer.py:162-201 | loaded records are of known kinds, with strictly increasing sequences from one on |
| LossDetection.SilentReading | container/native_observer.py:145-240 | reading stays without an issue exactly on transcripts, open or ended, and then has read exactly their records, start and end |
| LossDetection.IssueFreeExactly | container/native_observer.py:112-264 | no issue is reported if and only if the text is terminated, within the record limit, line k carries sequence k, with one start first, one end last and matching counts |
| LossDetection.LossIsDetected | container/native_observer.py:145-263 | of a full transcript any subsequence loads without an issue if and only if nothing was dropped |
| LossDetection.DamageIsDetected | container/native_observer.py:145-161 | a line that does not parse is never silent |
| LoadedLines.LoadedExactly | container/native_observer.py:112-264 | every text, damaged or not: started, ended, records and counters are those of its good lines, records under the numbers of their lines, and every issue code is there exactly for its own cause |
| LossDetection.NothingLoaded | container/native_observer.py:82-143 | a missing, unreadable, empty or oversized capture is unstarted, open and empty, and its only issue says which it was |
| LossDetection.TransportIssueJoins | container/native_observer.py:82-94 | the transport's own issue joins those of the capture and changes nothing else |
| BuilderLoop.TakeAll | container/runtime_evidence.py:627-665 | the loops over issues and records build the intake: starts and terminals by id, losses without duplicates, the invalid flag |
| BuilderLoop.ObserveOne | container/runtime_evidence.py:672-795 | one turn of the loop over the starts appends exactly the accounting events and the observation of that start, for every fault in its terminal; what that observation says is PublishedFields.EveryCallIsPublished |
| BuilderLoop.BuildRuntimeEvidence | container/runtime_evidence.py:609-873 | the builder returns the evidence of the capture, or fails exactly when the validator rejects it; what that evidence says of the records is PublishedFields.EveryCallIsPublished and PublishedCoverage.BoundariesTellTheirMode |
| PublishedFields.EveryCallIsPublished | container/runtime_evidence.py:667-795 | every retained call is published once, in start order; a value appears exactly if the record gives it and the sanitizer keeps it, then unchanged, and one it would change is withheld as a credential; identities, parent, outcome, result and error come from their own fields of the call's own records |
| PublishedFields.PairedExactly | container/runtime_evidence.py:679-717 | a terminal is taken for a start exactly if it has its kind, tool and identity, comes later, and carries a known outcome with the label of that outcome |
| PublishedFields.CoverageIsTheCaptures | container/runtime_evidence.py:800-872 | closedness, process state, observation counts and the two failure counters of the coverage are those of the capture, each under its own name, or say why they are not known |
| PublishedCoverage.BoundariesTellTheirMode | container/runtime_evidence.py:822-834 | for a sound capture each published boundary counts the observations of its mode and those that ended, and lists exactly the issues that have a cause among them or in the capture |
| PublishedCoverage.UnsoundBoundariesSaySo | container/runtime_evidence.py:822-834 | for an unsound one both boundaries are invalid, ineligible and marked |
| PublishedCoverage.LossesHaveCauses | container/runtime_evidence.py:840-846 | the published losses of a sound capture are exactly its issues and the codes whose cause is in the capture or in some call |
| PublishedCoverage.OnlyLimitation | container/runtime_evidence.py:847-853 | the only published limitation is that Code Mode results are not final, and the boundary that stands for it is always the same unsupported one |
| ValidatorLoop.CheckObservations | container/runtime_evidence.py:936-1036 | the loop over the observations accepts exactly valid, ordered observations with their parents established, and rebuilds their events and counts |
| ValidatorLoop.ValidateRuntimeEvidence | container/runtime_evidence.py:888-1066 | the validator accepts exactly the objects that meet the declarative conditions, the second accounting included |
| ValidatedEvidence.ValidGuarantees | container/runtime_evidence.py:936-1036 | what any validated object guarantees: every withheld field is explained, outcome and terminal agree, result and error are never both shown and never for Code Mode, ids and sequences are all different and starts increase, and every Code Mode call has an earlier native parent of its own identity |
| ValidatedEvidence.CountsSay | container/runtime_evidence.py:896-935 | its counters are the numbers of its observations or are all unknown with a loss; a transport that cannot observe has neither observations nor numbers |
| IntakeFacts.TakeKeeps | container/runtime_evidence.py:642-662 | retained starts and terminals have distinct sequences, the kinds of their tables and their own ids, for every list of records |
| IntakeReading.IntakeExactly | container/runtime_evidence.py:627-665 | the first usable start and the first usable terminal of every invocation are retained and nothing else, and the intake is damaged exactly if the capture is or some record was dropped |
| IntakeReading.SoundExactly | container/runtime_evidence.py:554-799 | a capture is sound if and only if it has no damaging issue and its records are regular: own ids and numbers, no invocation with two starts or two terminals, every terminal answering its start and every Code Mode call inside the hooked native call it names |
| IntakeFacts.IdsIncreasing | container/runtime_evidence.py:672-672 | the loop over the starts visits each once in strictly increasing sequence |
| Events.ReconstructOrderly | container/runtime_evidence.py:1043-1060 | the events rebuilt from separate, ordered observations are orderly |
| Events.SoundEvents | container/runtime_evidence.py:667-799 | no accounting event is malformed exactly for a sound capture, and then the builder's events are the ones rebuilt from the observations |
| Agreement.InvalidIffUnsound | container/runtime_evidence.py:809-872 | the built status is invalid exactly for an unsound capture |
| PublishedCoverage.DamageDecides | container/runtime_evidence.py:591-665 | beside its records a capture is unsound exactly when it has an issue other than a missing or empty capture, a missing end or a failed read |
| Agreement.PublishedLosses | container/runtime_evidence.py:840-846 | the published losses contain an invalid code exactly for an unsound capture and, for a sound one, a capture loss exactly when the builder counted one |
| Agreement.SecondAccountAgrees | container/runtime_evidence.py:1043-1065 | accounting again from the public object alone gives the same overall and boundary statuses, although malformed markers are dropped and re-created from loss codes |
| Publication.PublishableExactly | container/runtime_evidence.py:609-1066 | for every loader capture the built evidence passes the validator if and only if the texts it publishes are non-blank and, when sound, no Code Mode call hangs on an outer call whose tool is a bare string other than execute |
| LoadedEvidence.ReceivedIsPublishableExactly | container/native_observer.py:82-264 | the same from the received bytes on, whatever arrives |
| LoadedEvidence.FieldObjectsArePublished | container/runtime_evidence.py:609-1066 | with field objects, as the observer writes them, every received capture however damaged is published as valid evidence whose second accounting agrees |
| LoadedEvidence.BareToolIsRejected | container/runtime_evidence.py:554-563 | a loader capture the builder accepts as sound and the validator rejects, because one reads a bare string tool and the other does not |
| CaptureStatus.CompleteCaptureExactly | container/runtime_evidence.py:609-873 | built evidence is complete if and only if the capture ended without issue or failure, the process completed, every start is paired with its terminal and no required field is omitted |
| Readiness.DedupeValues | runner/eval_evidence.py:70-77 | first occurrences, in order, without duplicates |
| Readiness.NormalizeBoundaries | runner/eval_evidence.py:89-111 | succeeds exactly when every name is known, and gives reasons otherwise |
| Readiness.WeighBoundaries | runner/eval_evidence.py:205-224 | the worst status among the required boundaries, with reasons exactly when it is not ready |
| Readiness.CheckEvidenceReadiness | runner/eval_evidence.py:158-283 | the engine's standing for any evidence object and requirement, with reasons exactly when it is not ready |
| Readiness.AssertionStatus | container/runtime_evidence.py:1069-1139 | the pipeline's own status: overall status first, then the first bad name, then the worst boundary, then the first unmet field |
| PipelineAnswers.PipelineExactly | container/runtime_evidence.py:1069-1139 | that status, said of the evidence: the capture as a whole, then the first name that is none, then the worst boundary named, then the first field that is not met |
| PipelineAnswers.FieldStatusExactly | container/runtime_evidence.py:1121-1138 | what one field requirement is answered follows from the member it names of the observation with that id, for every id and every name |
| ReadinessLaws.CutShortIsNotComplete | container/runtime_evidence.py:1043-1065 | validated evidence of a timed-out or interrupted capture is incomplete or invalid |
| ReadinessLaws.EvaluatorsAgree | runner/eval_evidence.py:158-224 | on validated evidence and any non-empty list of known boundaries both evaluators give the same answer, complete being ready |
| ReadinessLaws.EvaluatorsAgreeOnFields | runner/eval_evidence.py:227-283 | asked for the same field objects of every observation, one says complete exactly when the other is ready |
| ReadinessLaws.FieldStandingExactly | runner/eval_evidence.py:240-283 | the standing of a field requirement follows from the member it names, for every name, derived ones and unknown ones included |
| ReadinessLaws.ReadyOnFieldsExactly | runner/eval_evidence.py:227-283 | evidence is ready for boundaries and fields if and only if it is ready for the boundaries and every observation holds every member named |
| ReadinessLaws.ReadyMeansComplete | runner/eval_evidence.py:192-224 | evidence that is ready for some boundary has status complete if and only if its transport could observe |
| ReadinessLaws.UnobservedIsReady | container/runtime_evidence.py:464-488 | evidence of a transport that could not observe can pass the validator with boundaries that say complete, and is then ready although its status is unsupported |
| ReadinessLaws.StartSequenceExactly | runner/eval_evidence.py:255-260 | asked for the start sequence the engine is ready exactly when every observation starts at one or later |
| ReadinessLaws.LoadedStartsArePositive | container/native_observer.py:162-201 | every observation built from received bytes starts at one or later, so that test never fires on them |
| AssertionLoops.Existence | runner/eval_assertions.py:145-161 | the verdict on one call or a group of alternatives: seen, not seen, or not decidable |
| AssertionLoops.ResultMatch | runner/eval_assertions.py:211-251 | the three loops (matching, after, results) give the verdict defined by candidates, standing candidates and doubts |
| AssertionLoops.DeterministicChecks | runner/eval_assertions.py:269-306 | the checks of a case, in order: a single non-evidence check when observations are asked about and missing, otherwise all runtime families and the checks of the text; what they say is CheckMeaning.FamiliesSay and CheckMeaning.TextSays |
| CheckMeaning.FamiliesSay | runner/eval_assertions.py:145-297 | position by position: where the calls are decided a required tool, action, alternative or result passes exactly if it is there and fails otherwise, a forbidden one the reverse; and no check ever passes or fails against any completion of what was observed |
| CheckMeaning.TextSays | runner/eval_assertions.py:288-305 | position by position: a part asked for passes exactly if the text contains it, a forbidden one exactly if it does not, and the links exactly if enough are shared |
| CheckMeaning.TargetSays | runner/eval_assertions.py:269-306 | a target is judged by the checks of its observations followed by those of its text; what is asked about and missing leaves a single non-evidence check in its place |
| AssertionLaws.ResultVerdictKeeps | runner/eval_assertions.py:211-257 | learning withheld fields or a missing outcome never flips a conclusive tool-result verdict, occurrence and after included |
| AssertionLaws.ExistenceVerdictKeeps | runner/eval_assertions.py:145-161 | the same for tools, actions and any_of |
| AssertionLaws.ChecksKeep | runner/eval_assertions.py:269-297 | no check of any case flips between pass and fail when more becomes known |
| AssertionLaws.TargetChecksKeep | runner/eval_assertions.py:269-306 | the same for all checks of a target, those of its text included |
| AssertionLaws.DecidedIsMeaning | runner/eval_assertions.py:211-251 | where the calls can be told apart and the results of the calls meant are known, the verdict is the two-valued meaning of the assertion; open, unrelated and Code Mode calls may stand beside them |
| AssertionLaws.ConclusiveResultIsTrue | runner/eval_assertions.py:211-257 | a conclusive tool-result verdict over partly unknown observations equals the two-valued meaning on every such completion |
| AssertionLaws.ConclusiveExistenceIsTrue | runner/eval_assertions.py:145-161 | the same for tools, actions and any_of |
| AssertionLaws.ToolVerdictIsExact | runner/eval_assertions.py:145-153 | for tools non-evidence is exact: one completion satisfies the assertion and another does not |
| AssertionLaws.ResultVerdictIsCautious | runner/eval_assertions.py:211-251 | for tool results it can be cautious: a family where no completion can match and the verdict is still non-evidence |
| AssertionSharpness.CouldCallExactly | runner/eval_assertions.py:133-142 | a call could be the one asked for, and could be another one, exactly when its withheld tool and input allow it |
| AssertionSharpness.CouldReturnExactly | runner/eval_assertions.py:238-250 | a call could return what is asked exactly when an outcome that fits the status has, or may have, a matching value |
| AssertionSharpness.CanHoldExactly | runner/eval_assertions.py:211-251 | some completion satisfies a tool-result assertion, occurrence and after included, if and only if one call could be the one meant, with no more necessary and no fewer possible calls before it than its number, could return what is asked, and some earlier call could be the one named by after |
| AssertionSharpness.AnyCanHoldExactly | runner/eval_assertions.py:211-251 | without an occurrence: one possible call with a possible result and, for after, a possible call before it |
| AssertionSharpness.CanBreakExactly | runner/eval_assertions.py:211-251 | some completion breaks it if and only if every call could be another one, fail or come first; with an occurrence, too few calls are necessary, or the one meant could fail or come first |
| AssertionSharpness.CanBeFirstExactly | runner/eval_assertions.py:222-233 | no earlier call need be the one named by after, all at once, exactly when each of them could be another call |
| AssertionSharpness.ConclusiveIsTrue | runner/eval_assertions.py:211-257 | a conclusive verdict is the truth about everything that can be filled in, whatever its shape |
| AssertionSharpness.SharpExactly | runner/eval_assertions.py:211-257 | one completion satisfies the assertion and another breaks it exactly under both conditions, and then the verdict is non-evidence; a non-evidence verdict without them has the same answer on every completion |
| AssertionSharpness.ExistenceSharpExactly | runner/eval_assertions.py:145-161 | the same for tools, actions and any_of: one call could be one of those named, and each call could be none of them |
| Attempts.ApplyReadiness | runner/eval_execute.py:543-571 | readiness of the result's own evidence replaces the stored one and turns a success without it into a failure; a result without evidence fails |
| Attempts.InvokeOnce | runner/eval_execute.py:435-486 | one invocation, whatever it does, becomes the attempt record defined for it, whose failure is characterised by Attempts.NoFailureExactly and Attempts.FailureExactly |
| Attempts.NoFailureExactly | runner/eval_execute.py:308-376 | an attempt has no failure if and only if the host exited with zero and the result reports no infrastructure error, no timeout and exit code zero, and for a target its evidence is ready |
| Attempts.FailureExactly | runner/eval_execute.py:308-376 | every failure code is given exactly for its own cause, on its own plane, and is replay-safe exactly for a non-zero host exit with evidence that nothing began |
| Attempts.DecisionExactly | runner/eval_execute.py:393-414 | a retry is granted exactly below the maximum, after a replay-safe failure, by a policy that answers sensibly, whose reason and delay are then followed |
| Attempts.RunAttempts | runner/eval_execute.py:417-527 | the retry loop under any invoker and policy: at most the maximum of attempts, the k-th being invocation k, each but the last followed by a granted retry and its delay, one decision per failure, and it stops only where the rules stop it |
| Attempts.ReplaySafeMeansNothingRan | runner/eval_execute.py:224-244 | a replay-safe failure comes only with a non-zero host exit and complete, closed evidence of a finished process that counts no start and holds no observation |
| Attempts.EveryHistory | runner/eval_execute.py:417-527 | in every history attempts are numbered from one, every non-final attempt failed replay-safely on such evidence and was granted a retry, and only a last failing attempt is refused |
| Attempts.AttemptsJson | runner/eval_engine.py:285-311 | builds the list, pairing the k-th failure with the k-th decision, and refuses exactly when there are more decisions than failures |
| Attempts.ValidateAttempts | runner/eval_artifacts.py:179-183 | accepts exactly contiguous numbering from one with a result or a failure in each attempt |
| Attempts.HistoriesAreAccepted | runner/eval_engine.py:285-311 | every history has as many decisions as failures, its list validates, and each failed attempt carries its own decision |
| Classification.VerdictExactly | runner/eval_classification.py:56-112 | a pass, and a fail, is given exactly on these grounds; anything else is non-evidence |
| Lifecycle.RunChecks | runner/eval_engine.py:125-150 | a raising or malformed checks callback leaves a single non-evidence check |
| Lifecycle.ReadJudge | runner/eval_engine.py:78-86 | only a well-formed pass or fail decision that the profile returned is read; anything else is a contract failure |
| Lifecycle.EvaluateTarget | runner/eval_engine.py:89-215 | for any profile: pass if and only if target usable, checks returned and all pass, and any judge executed and read as pass; fail if and only if the corresponding grounds for failure hold; a callback that raised or answered malformed always leaves the verdict non-evidence |
| Lifecycle.UsableMeansOwnEvidence | runner/eval_execute.py:530-586 | a usable final attempt ran cleanly and brought its own ready evidence, whatever readiness earlier attempts left behind |
| Lifecycle.RunEvaluationPhase | runner/eval_engine.py:218-265 | any verdict other than non-evidence rests on the final attempt's own ready evidence, on host and product exit codes of zero without timeout or infrastructure error in that attempt, on returned checks and on a judge that ran as asked and just as cleanly; after a callback that raised or answered malformed the verdict is non-evidence, and every phase left behind what it was asked for |
| Lifecycle.RaisingCallbacksGiveNoVerdict | runner/eval_engine.py:125-188 | a checks, judge-spec or parse callback that raised or answered malformed leaves no grounds for a pass or a fail |
| CaseId.EncodeUleb | runner/eval_input.py:370-376 | the shifting loop writes the ULEB128 form |
| CaseId.UlebRoundTrip | runner/eval_input.py:370-376 | reading the length back returns it and leaves what follows (section 7.6 of DWARF 5) |
| CaseId.SextetsRoundTrip | runner/eval_input.py:385-385 | unpadded base64 groups decode to the bytes they encode (sections 3.2 and 5 of RFC 4648) |
| CaseId.CombinedSkillCaseId | runner/eval_input.py:379-385 | the loop over skill and source id builds the id: prefix, length and UTF-16BE units of each, base64url without padding |
| CaseId.IdRoundTrip | runner/eval_input.py:379-385 | a decoder recovers both code-unit sequences from every id |
| CaseId.SameIdExactly | runner/eval_input.py:379-385 | two pairs share an id if and only if their UTF-16 code units are the same |
| CaseId.Utf16Exactly | runner/eval_input.py:383-383 | code points are recovered from code units exactly for strings without a lone high surrogate directly before a lone low one (section 2.1 of RFC 2781) |
| CaseId.IdsAreInjective | runner/eval_input.py:379-385 | among such strings distinct pairs have distinct ids |
| CaseId.PairsCollide | runner/eval_input.py:379-385 | every pair of strings shares its id with a pair in which neither string has such a place, and that is a different pair exactly when one of the two strings, skill or source, has one |
| YamlText.YamlTree | runner/eval_output.py:1022-1062 | the recursive printer with its local line lists returns the lines of the tree joined by newlines, at every indent |
| YamlText.QuotedReadsBack | runner/eval_output.py:1010-1016 | a quoted string holds no newline and is read back with what follows it |
| YamlRoundTrip.ReadsBlock | runner/eval_output.py:1022-1062 | a line reader recovers the printed block and stops at the first less indented line, at every nesting |
| YamlRoundTrip.PrintedIsReadBack | runner/eval_output.py:1022-1062 | reading the printed text returns exactly the tree, empty collections included (sections 7.3.1, 8.2.1, 8.2.2 and 10.2 of YAML 1.2.2) |
| YamlRoundTrip.PrintingIsInjective | runner/eval_output.py:1022-1062 | two trees with the same text are the same tree |
| Paths.Utf8RoundTrip | runner/eval_artifacts.py:611-618 | UTF-8 bytes decode to the text they encode |
| Paths.QuotedRoundTrip | runner/eval_artifacts.py:615-615 | percent-encoding without safe characters is undone by its decoder and holds no slash (sections 2.1 and 2.3 of RFC 3986) |
| Paths.ComponentRoundTrip | runner/eval_artifacts.py:611-618 | a case component determines its case id and is a single path component other than the two dot names |
| Paths.PathsAreInjective | runner/eval_artifacts.py:692-714 | distinct (case, iteration) identities never share a path and job and paired paths never collide |
| Redaction.BuildVariants | container/evidence_safety.py:192-207 | the loop that escapes only newly added values reaches the same set as escaping everything, three layers deep |
| Redaction.NothingLeft | container/evidence_safety.py:247-253 | no variant is left in redacted text when no variant can overlap the marker |
| Redaction.RedactionIsExact | container/evidence_safety.py:247-253 | then redacting twice is redacting once, and a change is reported exactly when some variant occurred |
| Redaction.OnlyVariantsAreReplaced | container/evidence_safety.py:247-253 | whatever the variants, redacted text is the text with some stretches, each of them a variant, replaced by the marker; what stands between them is kept and holds no variant |
| Redaction.PlainIsHarmless | container/evidence_safety.py:17-17 | a variant without an asterisk that is no part of the word in the marker meets that condition |
| Redaction.OneVariantExactly | container/evidence_safety.py:247-253 | redacting one variant never leaves it behind, on any text, if and only if the variant is harmless |
| Redaction.EveryInventoryExactly | container/evidence_safety.py:247-253 | a variant is harmless if and only if no inventory that holds it and no text leave it behind |
| Redaction.BeginningProtects | container/evidence_safety.py:247-253 | in one fixed inventory a variant that begins with a harmless listed one is never left, harmless itself or not |
| Redaction.HarmlessMeaning | container/evidence_safety.py:17-17 | the condition says exactly that no occurrence can touch a marker, whatever stands around it |
| Redaction.TouchingVariantSurvives | container/evidence_safety.py:247-253 | without it a variant can survive redaction and redacting again changes the text |
| Redaction.MatchIsLongest | container/evidence_safety.py:209-217 | with a longest-first list the leftmost match is the longest variant there |
| Redaction.ListingIsIrrelevant | container/evidence_safety.py:209-217 | any two longest-first listings of the same variants redact alike |
| RedactedTrees.Owned | container/evidence_safety.py:61-84 | the recursion over a shared budget accepts exactly values of bounded depth that fit in what is left of it |
| RedactedTrees.EvidenceValue | container/evidence_safety.py:261-293 | succeeds exactly when no key is sensitive or holds a variant and no number is a credential, with the redacted tree, the change flag and the reason of the first offending place |
| RedactedTrees.PublicValue | container/evidence_safety.py:255-259 | the same behind the inventory, depth and size tests |
| RedactedTrees.TreesAreRedacted | container/evidence_safety.py:261-293 | shape is kept, no variant is left at any string leaf, a change is reported exactly when one stood there, and redacting the result again changes nothing |
| Projections.Projection.Field | container/evidence_safety.py:386-414 | one projected field: what may be shown, the disposition recorded and the loss counted |
| Projections.Projection.DropEvent | container/invoke.py:205-211 | dropping an event removes exactly its dispositions |
| Window.ProjectEvent | container/invoke.py:213-298 | one tool event becomes the item and dispositions Window.EventIsTold characterises, and raises exactly when its status is a list or an object |
| Window.Slide | container/invoke.py:300-305 | one turn keeps the window the last events of the stream with exactly their dispositions and counted losses, or raises with its event |
| Window.ExtractToolResults | container/invoke.py:170-321 | raises exactly when some tool event has a status that cannot be hashed; otherwise both loops publish the evidence defined for the smallest number of dropped events, at least those beyond the window, at which the encoded length fits or nothing is left |
| Window.ItemsTellTheirEvents | container/invoke.py:213-321 | every published item tells its own event: a field is shown exactly if the member it names may be shown and fits its limit, with that member's value; a completed event accounts for its output, a failed one for its error, any other for what is there; everything withheld has its own reason |
| Window.WindowIsExact | container/invoke.py:170-321 | omitted + retained is observed, at most 64 are retained, sequences are omitted+1 to observed, every disposition refers to a retained event and both kinds of dropping are counted |
| Window.ShownFields | container/invoke.py:186-203 | an item shows a field if and only if a disposition of the event says so, and every projection ends as shown or hidden |
| Plan.ValidateCases | runner/eval_plan.py:13-40 | accepts exactly suites of distinct non-empty ids that are among their own non-empty selectors |
| Plan.Schedule | runner/eval_plan.py:176-213 | stable lanes, standard before runtime, with resolved parallelism, and errors exactly for a foreign lane or a bad number |
| Plan.BuildPlan | runner/eval_plan.py:216-239 | a plan is made if and only if the suite is valid, something is selected by known selectors, the numbers are in range and every selected case has a known lane; it holds the selected cases times the iterations in stable lane order |
| Plan.PlanIsExact | runner/eval_plan.py:113-131 | its jobs are exactly the selected cases with iterations 1 to n, each key once, and their number is the product |
| Runs.RunLane | runner/eval_cli.py:411-441 | sequentially or in any completion order every job of the lane ends in artifacts or errors, according to its own execution, and nothing else does |
| Runs.RunState.PersistLane | runner/eval_cli.py:520-549 | every produced artifact is stored and its job gets the artifact's classification; no other entry changes |
| Runs.RunState.Mark | runner/eval_cli.py:552-566 | exactly the named keys get the status |
| Runs.Summarize | runner/eval_cli.py:569-618 | counts every status once, gives the state those counts mean, and fails exactly when a stored verdict changed since it was persisted |
| Runs.CountsAddUp | runner/eval_cli.py:569-618 | the five counts add up to the number of planned jobs |
| Runs.ExecutePlan | runner/eval_cli.py:780-862 | whatever the completion orders every planned job ends with the one status it is due, and the summary tells the run: pass exactly if every job produced an artifact that passed, error exactly if some job raised or its artifact is broken, verdict otherwise, with counts by what each artifact carries |
| Runs.SummaryTellsRun | runner/eval_cli.py:569-618 | state and counts of the summary follow from the executions alone |
| Runs.LoadOutput | runner/eval_output.py:483-588 | given the outcome of the identity checks, the loader accepts exactly manifests with identified input and artifacts, without planned, errored or skipped jobs, whose artifacts agree and whose summary has the recounted numbers and the state they mean |
| Runs.FinishedRunConforms | runner/eval_output.py:483-588 | a finished run is accepted if and only if no job errored, none was left out and the identity checks succeed |

## Left out

- Redaction.RedactionIsExact: harmlessness of every variant is necessary over all inventories and for each variant alone; in one fixed inventory it is only sufficient, since another variant can take away the text a touching one would need (Redaction.BeginningProtects).
- Events.SoundEvents: exact-key and type checks of raw records (a boolean where a number is expected, a kind that cannot be hashed, non-string issue codes) are in the datatypes; the builder is not claimed to be total on such records.
- AssertionSharpness.SharpExactly: a completion may give any value to a withheld field, also one the validator would not publish, such as the result of a Code Mode call.
- QuietRuns.QuietRunIsComplete: identities are strings without NUL and not empty, projected texts are shown unchanged, and invocation ids are new and at most 256 characters; the plugin host's own guarantees on when callbacks fire are not modelled, so interleavings it never produces are covered too.
- Attempts.RunAttempts: start times, durations and messages of failures are not part of an attempt; sleeping is the list of delays.
- Lifecycle.RunEvaluationPhase: the construction of invocation specifications, the artifact envelope and its integrity seal.
- Window.ExtractToolResults: the encoded length of a value and of the whole evidence are functions, since JSON text is not modelled; a value whose encoding raises is not modelled.
- YamlRoundTrip.PrintedIsReadBack: numbers are their JSON text, which ends in a digit, and strings hold no surrogates; the reader covers the printed subset, not YAML in general.
- Paths.PathsAreInjective: paths are POSIX strings; directory ownership, symbolic links and atomic replacement are file-system behaviour.
- Runs.ExecutePlan: the store returns what was written, threads are an arbitrary completion order, and progress lines are not modelled.
- Runs.LoadOutput: the identity, provenance and digest checks themselves are given as outcomes, one for the input and one for each artifact against its job.
- Sanitizer and size limit of the builder are one function from a value to keep, redact or refuse with a reason; every theorem holds for any such function with non-blank reasons.
- Sockets, threads and clocks of the transport: a received text is a list of lines, some of them damaged, with or without its last newline, and the transport's own issue.
- JSON parsing, the regular-expression engine and hashing: lines are parsed already, the matcher is ordered leftmost alternation, hashes do not appear.
- `normalize_tool`, `_args_match` and `_result_value_matches` are arbitrary functions: no law depends on their details.
- AssertionLoops.DeterministicChecks: the number of links a text shares with its prompt is given; names, reasons and metadata of checks are not modelled.
- `output_value` and `json_lines` of the sanitizer, and the collection of credentials from environment, files and databases.
- OCI commands, image inspection, catalogues, the preflight server, report rendering, prompt and agent text, and the meaning of project profiles.
