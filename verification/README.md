# Verified model of Replayforge and its demo bank

Replayforge learns an operation of a web application from one discovered trace, compiles the trace into a
capability artifact, merges verified scenarios into it as branches, publishes it behind a gate, and
replays it deterministically, handing the live session to a human when it cannot go on. This project
models that pipeline in Dafny and proves what it promises, together with the servicing ledger of the
demo bank and the bounded viewer that shows executions.

| file | what it models |
|---|---|
| `Handoff.dfy`, `HandoffRules.dfy`, `LiveControl.dfy`, `InterventionService.dfy` | control leases and interventions under interleaved calls; who may do what; human inputs on the live session; the mutable services |
| `Capability.dfy` | conditions, steps, recoveries, artifacts and what a valid artifact guarantees |
| `Replay.dfy`, `ReplayEngine.dfy` | the meaning of a replay as functions; the engine's loops over mutable state, proved to compute them |
| `ReplayProofs.dfy`, `ReplayHonesty.dfy`, `ReplayStage.dfy`, `ReplayOnce.dfy`, `ReplaySample.dfy` | theorems about whole replays; a scripted surface, and exactly when no effect is repeated; two payments made twice |
| `ReplayGate.dfy`, `ReplayCauses.dfy`, `ReplayVerified.dfy`, `ReplayComplete.dfy` | what is done to the surface was allowed; why steps and runs end as they do; what a success has been through |
| `ReplayLease.dfy` | a replay's lease as a view of the shared store, over a whole life |
| `Merge.dfy`, `MergeEvidence.dfy`, `MergeProofs.dfy`, `MergeSample.dfy` | merging scenarios into an artifact, exactly what it accepts, why it is a conservative extension, and one merge in full |
| `Policy.dfy`, `Discovery.dfy` | the policy cascade; the discovery loop, its branch markers and the compiler |
| `Suite.dfy` | the publication gate over runs of service calls |
| `Bank.dfy`, `BankCommands.dfy`, `BankPosting.dfy`, `BankSeed.dfy`, `Workspace.dfy` | the ledger, its commands and quotes; exactly what each command does; execution on a clone; the first bank; review and confirm |
| `Viewer.dfy` | the bounded viewer |

Conventions. A surface is an oracle: every question may be answered in any way, may fail, and may
leave any new world behind. A whole replay is `Replay.Life`: a first segment and one resumption for
each period of human control. Where the program changes state in place, a class carries the fields and
each method's postcondition equates its result and the new state with a function; the theorems are
about the functions. `Replay.Run` carries history that the program does not keep (what was handed to the
surface or read from it, which effects really happened, whether a retry repeated one, how many steps were
entered, what a watch saw); nothing in the modelled control flow reads it.

What a replay may do and why it ends is said on the surface's own answers. `ReplayGate.Asked` is the gate a
step passes before its action: the lease not expired, each precondition answered yes, the page observed, the
target found, policy's decision in that very world. `ReplayCauses.Since` holds of two worlds if only questions
lie between them; with it a step that is done had its postconditions come true after its action, and an
outcome or a recovery was the only referenced branch to show. `Caused` and `RunCaused` list what may be behind
a failure's code.

At most one effect per step is not a property of every artifact; it fails in two ways. The engine repeats
an attempt when an error of the surface claims to be recoverable and without effect and is listed by the
step, and does not ask whether the action was dispatched
(`backend/src/replayforge/replay/engine.py:628-633`). And a recovery may resume at any main step
(`backend/src/replayforge/capabilities/models.py:1186-1194`), so also at one that has already acted. The
exact condition is on the artifact, `ReplayOnce.Single`: a main step acts at most once on every surface if
and only if it does not operate the surface, or lists no error to retry and is `Past` every recovery, that
is, no step from it on refers to a recovery that resumes at it or before it. Where recoveries are no issue,
as in compiled artifacts, and each operating step may be retried
(`backend/src/replayforge/discovery/compiler.py:309-314`), the guarantee rests on the surface:
`ReplayOnce.CompiledActsAtMostOnce` asks that it does not raise the one error compiled steps retry,
`ReplayHonesty.HonestSurfacesActAtMostOnce` that it does not raise a retried error denying an effect it had;
on such surfaces being `Past` is the exact condition for a step that operates. `ReplaySample` has a payment
made twice for each way.

Merging is compared along runs. A job carries a `Watch`, which only sets a history bit of the run; the
watch `MergeProofs.Lookout` sets it when a question about a branch that merging added is answered
otherwise than by a plain no, or when policy decides otherwise than it would have for the primary. A run
of the merged artifact in which the bit stays unset is the run of the primary.

The straight-line methods of `ReplayEngine.Engine`, `Discovery.Explorer`, `BankPosting.Clone`,
`Suite.DiscoverySuiteService` and the classes of `InterventionService` follow their specification functions
branch by branch and have no row below. `InterventionService` shows that the in-place swap and creation over
two dictionaries, the coordinator's read, prepare and commit, the session's spending of a frame, and the
viewport with its media check are those of `Handoff` and `LiveControl`, error by error.

## Model

| member | source | states |
|---|---|---|
| Handoff.SnapshotIsCurrent | backend/src/replayforge/interventions/transactions.py:127-151 | no ABA: if status and lease version still match, the whole pair the call read is what the store holds |
| HandoffRules.PreparesExactly | backend/src/replayforge/interventions/service.py:81-225 | when each coordinator operation may prepare a replacement, by status, operator, version and expiry, and the status, operator, owner and lease it leaves |
| Handoff.TransitionCommit | backend/src/replayforge/interventions/transactions.py:127-186 | committing a coordinator transition keeps the pair invariant for every intervention |
| Handoff.OpeningCommit | backend/src/replayforge/interventions/transactions.py:99-125 | pausing and creating the intervention is one change that keeps the pair invariant |
| Handoff.PulseCommit | backend/src/replayforge/interventions/leases.py:56-74 | an automation heartbeat through the second path keeps the pair invariant |
| Handoff.RunKeeps | backend/src/replayforge/interventions/transactions.py:33-59 | the invariants hold after every interleaving of reads, commits, heartbeats and openings |
| Handoff.RunLater | backend/src/replayforge/interventions/leases.py:56-74 | along a run lease versions never decrease and equal versions mean equal leases |
| Handoff.ActiveAgreesAndIsUnique | backend/src/replayforge/interventions/transactions.py:33-59 | in every reachable state an active intervention agrees with its lease, and a session has at most one active intervention |
| Handoff.VersionHasOneOwner | backend/src/replayforge/interventions/leases.py:192-207 | for all time, two principals cannot both pass the acting check with one lease version |
| Handoff.CommitIsAtomic | backend/src/replayforge/interventions/service.py:181-197 | a successful commit applies the call's own preparation to exactly the pair it had read |
| Handoff.CompletionBelongsToItsResume | backend/src/replayforge/interventions/service.py:134-169 | completing a resumption succeeds only for the very attempt that returned the version, with the lease paused throughout |
| Handoff.NeverStuck | backend/src/replayforge/interventions/service.py:81-225 | from every reachable active state at most two coordinator calls lead to termination, whatever has expired |
| HandoffRules.CallsExactly | backend/src/replayforge/interventions/service.py:81-225 | in every reachable store a coordinator call goes through exactly when it may, and stores just the pair it leaves |
| HandoffRules.CommitsExactly | backend/src/replayforge/interventions/service.py:181-197 | a commit that interleaves with others was permitted on the very pair it replaces |
| HandoffRules.LiveClaimIsItsOperators | backend/src/replayforge/interventions/service.py:97-127 | while a claim's lease has not expired, only its own operator's release, resumption, renewal or termination goes through |
| HandoffRules.TakeoverExactly | backend/src/replayforge/interventions/service.py:97-113 | a claimed intervention is taken over exactly when its lease has expired and its version is quoted |
| HandoffRules.OverIsOver | backend/src/replayforge/interventions/service.py:81-225 | no call goes through on a resolved or terminated intervention |
| HandoffRules.PulsesExactly | backend/src/replayforge/interventions/leases.py:192-220 | automation renews exactly while it may act, or is told conflict or expiry |
| HandoffRules.OpensExactly | backend/src/replayforge/interventions/router.py:79-95 | a pause opens exactly while automation may act, for a new explained intervention, and stores the paused pair |
| LiveControl.TurnKeeps | backend/src/replayforge/runtime/composition.py:356-386 | every service turn keeps the frame bookkeeping of every live session |
| LiveControl.InputsAreSequenced | backend/src/replayforge/runtime/composition.py:194-238 | in every run inputs are dispatched once, with contiguous client numbers, each on its own newer frame under the lease version of the input |
| LiveControl.NobodyActsWhileResuming | backend/src/replayforge/interventions/service.py:134-169 | in every run, between the begin-resume that returned a version and a completion that quotes it and goes through, every input to the session and every look at it is refused, through whichever intervention |
| LiveControl.InputsExactly | backend/src/replayforge/runtime/composition.py:526-577 | an input is dispatched exactly if its sender controls the intervention now, it was journalled and it fits the frame on offer, which it uses up |
| LiveControl.ShowsExactly | backend/src/replayforge/runtime/composition.py:491-514 | a page is shown exactly to who controls the intervention now, as a new frame if it looks different |
| LiveControl.SessionsComeAndGo | backend/src/replayforge/runtime/composition.py:463-489 | sessions are attached afresh, closed into the retired ones, or go over to the next pause with their numbering |
| Capability.RestorationTestIsExact | backend/src/replayforge/capabilities/conditions.py:36-56 | the restored-state test succeeds if and only if every way to satisfy the condition makes some surface fact other than the blocker true |
| Capability.JudgeReadsOnlyItsOutputs | backend/src/replayforge/capabilities/conditions.py:14-23 | a condition's truth depends on no output beyond those listed for it |
| Replay.BudgetFalls | backend/src/replayforge/replay/engine.py:772-789 | starting a recovery that still had a use spends from the budget that bounds every run |
| Replay.SettleProgresses | backend/src/replayforge/replay/engine.py:163-200 | each round of the main loop moves to the next step or spends recovery budget, so replay terminates |
| Replay.FinishMainEnds | backend/src/replayforge/replay/engine.py:751-843 | what a main step with its recovery may change: effects of one step, one use of one of its own recoveries, an exact lease version |
| Replay.ValidateResume | backend/src/replayforge/replay/engine.py:209-344 | a resume check changes only outputs, all of them read after the human acted when it accepts |
| ReplayEngine.Engine.AllEvaluate | backend/src/replayforge/replay/engine.py:444-453 | the precondition loop stops at the first condition that fails or raises |
| ReplayEngine.Engine.IdentityVerified | backend/src/replayforge/replay/engine.py:537-556 | the loop over identity guards treats an error as not verified |
| ReplayEngine.Engine.Matching | backend/src/replayforge/replay/engine.py:845-879 | referenced branches are evaluated in order, all of them, and collected |
| ReplayEngine.Engine.Confirm | backend/src/replayforge/replay/engine.py:572-626 | the postcondition loop looks for outcomes, recoveries and failures around each wait |
| ReplayEngine.Engine.RunRecovery | backend/src/replayforge/replay/engine.py:813-843 | the recovery loop renews control after each step and never nests |
| ReplayEngine.Engine.Loop | backend/src/replayforge/replay/engine.py:376-418 | the main loop with its jumps computes the specified run, and terminates |
| ReplayEngine.Engine.ReadAgain | backend/src/replayforge/replay/engine.py:226-270 | outputs are cleared and only the needed ones are read again, in order |
| ReplayProofs.ValidatedIsKnown | backend/src/replayforge/capabilities/models.py:1109-1195 | in a valid artifact every reference of every step resolves |
| ReplayProofs.OnlyExpiryStopsARun | backend/src/replayforge/replay/engine.py:165-198 | in a whole run the engine always quotes the current lease version, never misses a reference and never nests a recovery: only an expired lease raises |
| ReplayProofs.NoStaleValueCrossesAHandoff | backend/src/replayforge/replay/engine.py:226-270 | no condition is judged with, and no success returns, an output read before the last human control |
| ReplayProofs.EntriesAreBounded | backend/src/replayforge/replay/engine.py:161-200 | an uninterrupted run enters main steps at most steps times (1 + sum of uses) times under any surface |
| ReplayProofs.RecoveriesAreBounded | backend/src/replayforge/replay/engine.py:772-789 | over a whole run with resumptions each recovery starts at most its maximum number of times |
| ReplayProofs.EffectsHappenAtMostOnce | backend/src/replayforge/replay/engine.py:628-659 | in a whole run of a valid artifact a main step that no recovery leads back to takes effect at most once, unless an attempt of that very step that had an effect was retried, which its own policy must allow |
| ReplayHonesty.HonestSurfacesActAtMostOnce | backend/src/replayforge/replay/engine.py:628-633 | on surfaces that, once an action took effect, raise no retried error claiming it did not, a main step that no recovery leads back to takes effect at most once |
| ReplayOnce.SingleActsOnce | backend/src/replayforge/replay/engine.py:628-659 | a main step of a valid artifact that lists no error to retry and that no recovery leads back to, or that does not operate the surface, takes effect at most once on every surface, over any number of handoffs |
| ReplayOnce.RepeatableActsTwice | backend/src/replayforge/replay/engine.py:628-659 | a main step that operates and may be retried can be made to take effect twice: the invocation and the surface that do it |
| ReplayOnce.RevisitedActsTwice | backend/src/replayforge/replay/engine.py:161-200 | a main step that operates and at or after which a recovery resumes at it or before it can be made to take effect twice, without any retry: the invocation and the surface that do it |
| ReplayOnce.StepActsOnceExactly | backend/src/replayforge/replay/engine.py:628-659 | for every valid artifact a main step acts at most once under every job, surface and sequence of handoffs if and only if it does not operate the surface, or allows no retry and is never led back to |
| ReplayOnce.ActsAtMostOnceExactly | backend/src/replayforge/replay/engine.py:628-659 | a valid artifact acts at most once whatever the surface does if and only if that holds of each main step |
| ReplayOnce.HonestStepActsOnceExactly | backend/src/replayforge/capabilities/models.py:1186-1194 | on surfaces that deny no effect, a main step of a valid artifact acts at most once if and only if it does not operate the surface or no recovery leads back to it |
| ReplayOnce.CompiledStepActsOnceExactly | backend/src/replayforge/discovery/compiler.py:295-317 | every step discovery compiles retries one error, so exactly the compiled steps that operate the surface can take effect twice |
| ReplayOnce.CompiledActsAtMostOnce | backend/src/replayforge/discovery/compiler.py:309-314 | a compiled capability acts at most once on every surface that does not raise that one error, whatever its other errors claim |
| ReplaySample.DenyingSurfaceRepeatsTheEffect | backend/src/replayforge/replay/engine.py:628-633 | on a surface that denies its effect a valid artifact pays twice and the run succeeds: the concrete run |
| ReplaySample.ReturningRecoveryRepeatsTheEffect | backend/src/replayforge/capabilities/models.py:1189-1194 | a valid artifact without retries whose recovery resumes at the step after which it is triggered pays twice on a surface that raises no error, and the run succeeds: the concrete run |
| ReplayGate.EveryDeedIsAllowed | backend/src/replayforge/replay/engine.py:443-533 | over every whole run each action handed over is a declared step's, under automation's lease, and was allowed by policy in the world it was done in, right after its preconditions were answered yes; each reading was allowed; each output is a text so read |
| ReplayGate.TheForbiddenIsNeverDone | backend/src/replayforge/replay/engine.py:480-483 | a step that policy never allows is never dispatched or read in any run |
| ReplayGate.AttemptActsExactly | backend/src/replayforge/replay/engine.py:443-533 | an attempt of an operating step hands its action over if and only if it passes the gate |
| ReplayGate.DeniedStepsAreBlocked | backend/src/replayforge/replay/engine.py:480-483 | a denied step fails as policy_blocked, in main steps and recoveries, with nothing done |
| ReplayGate.DeniedStepsEndTheRun | backend/src/replayforge/replay/engine.py:480-483 | and a denied main step ends the run with that failure |
| ReplayGate.SensitiveStepsWait | backend/src/replayforge/replay/engine.py:484-510 | a step that needs approval fails in a recovery, fails with its reason where nobody may be asked, and else pauses before acting, to go on behind the step |
| ReplayGate.NothingBeforeTheStart | backend/src/replayforge/replay/engine.py:127-163 | an invocation with invalid inputs, another tenant or an unmet precondition fails without entering a step, whatever is handed back |
| ReplayCauses.StepEndsForACause | backend/src/replayforge/replay/engine.py:428-690 | a step with its retries that is done acted and since then had every postcondition come true with no declared branch showing; an outcome or recovery was the only one of its kind to show, an outcome on the right record; a failure or pause has its cause |
| ReplayCauses.DetectedIsTheOnlyOne | backend/src/replayforge/replay/engine.py:845-879 | a detected branch answered yes and every other referenced one no; nothing detected means all answered no |
| ReplayCauses.PausesExactly | backend/src/replayforge/replay/engine.py:995-1142 | an unretried error pauses the run if and only if a human may be asked, the error calls for it, the page can be observed and shown, policy does not deny and the lease holds |
| ReplayVerified.EveryEndIsVerified | backend/src/replayforge/replay/engine.py:921-957 | over every whole run a success has the checkpoint come true with exactly its outputs in the last question asked, and they fit; an outcome is declared and was the only one to show; every failure and pause has its cause |
| ReplayVerified.AcceptedIsChecked | backend/src/replayforge/replay/engine.py:209-344 | an accepted resume check: allowed location, exactly the needed outputs read as the latest step up to the interrupted one reads them, and readiness to retry, an outcome, or confirmed postconditions in a changed page |
| ReplayVerified.NothingIsJudgedUnread | backend/src/replayforge/replay/engine.py:226-270 | every output mentioned by a condition the check may judge is read again |
| ReplayVerified.ResumptionIsEarned | backend/src/replayforge/replay/engine.py:360-375 | until the check passes a run stays paused where it was, with its lease, and nothing is done |
| ReplayComplete.RecoveriesAreTriggered | backend/src/replayforge/replay/engine.py:751-790 | over every whole run a recovery starts only for a main step that refers to it, after its trigger was seen |
| ReplayComplete.SuccessLeavesNothingOut | backend/src/replayforge/replay/engine.py:161-200 | a success without jumps had every postcondition of every main step come true, over any number of handoffs |
| ReplayComplete.SuccessHasActed | backend/src/replayforge/replay/engine.py:161-200 | an uninterrupted success without jumps handed over each operating step's action, which completed |
| ReplayComplete.AttemptsCountOn | backend/src/replayforge/replay/engine.py:376-418 | a run that is resumed and pauses at the same step counts its attempts on |
| ReplayLease.HeartbeatIsAPulse | backend/src/replayforge/interventions/leases.py:192-220 | a replay's heartbeat succeeds, conflicts or finds the lease expired as the heartbeat of the shared store does, and leaves the lease that leaves |
| ReplayLease.PauseIsAnOpening | backend/src/replayforge/interventions/router.py:79-95 | a replay's pause opens the intervention in the shared store or fails as that does, and leaves the paused lease stored there |
| ReplayLease.InterferenceIsNoticed | backend/src/replayforge/interventions/leases.py:192-200 | under every interleaving with other callers, a version that still passes the acting check names the lease the replay was given, untouched at every moment in between |
| ReplayLease.LifeIsMirrored | backend/src/replayforge/replay/engine.py:161-200 | a whole life with its resumptions is a run of the shared store: with whatever others do during its pauses, every heartbeat and pause goes through there and the store holds the lease the replay holds |
| ReplayLease.HandbackIsACompletion | backend/src/replayforge/interventions/service.py:134-169 | whatever others do, a lease comes back to automation only from a completion, under the version after the one it quoted: the version a resumption continues from |
| Merge.SharedPrefixLength | backend/src/replayforge/runs/discovery_suite.py:686-708 | the loop finds the longest common prefix of operations on the same controls at the same risk |
| Merge.MergeScenarios | backend/src/replayforge/runs/discovery_suite.py:537-683 | the loop over scenarios with its checks, in order, computes the specified merge or its first error |
| MergeEvidence.MergesExactly | backend/src/replayforge/runs/discovery_suite.py:537-683 | a merge accepts its evidence if and only if each scenario shares the contract, did step for step what the primary does up to the very step that asserts something present, and then stops at what is not yet established there, or works around it at low risk to a step to rejoin |
| MergeEvidence.RoutesAreOfTheEvidence | backend/src/replayforge/runs/discovery_suite.py:658-683 | routes and actions of a merge are those of the primary, the evidence and the recoveries, and no more |
| Merge.FoldGrows | backend/src/replayforge/runs/discovery_suite.py:586-661 | merging only appends: branches with positive distinctive conditions, and references to them |
| Merge.EveryScenarioIsPlaced | backend/src/replayforge/runs/discovery_suite.py:586-658 | every scenario of an accepted merge becomes a branch on what it asserted, on the very step after which it was seen, a recovery with its corrective steps and the next step to resume at |
| Merge.NothingElseIsAdded | backend/src/replayforge/runs/discovery_suite.py:540-683 | exactly one branch for each scenario |
| Merge.MergeExtends | backend/src/replayforge/runs/discovery_suite.py:660-683 | a merged artifact is valid and extends its primary |
| Merge.MergeKeepsForwardOnly | backend/src/replayforge/runs/discovery_suite.py:645-656 | recoveries still resume strictly after every step that refers to them |
| Merge.ExtensionKeepsPast | backend/src/replayforge/runs/discovery_suite.py:645-656 | a merged artifact leads back to a main step exactly where its primary does |
| MergeSample.SampleMerges | backend/src/replayforge/runs/discovery_suite.py:537-683 | a terminal branch and a recovery merged into a two-step primary: the exact result, which is valid |
| MergeProofs.MatchingWider | backend/src/replayforge/replay/engine.py:845-879 | references added to a step do not change which branch is found when each is answered no |
| MergeProofs.StepAlike | backend/src/replayforge/replay/engine.py:428-690 | a step and its extended form behave alike in every run in which no added branch showed, retries and pauses included |
| MergeProofs.ExtensionIsConservative | backend/src/replayforge/replay/engine.py:537-626 | a whole run of an extension in which each question about an added branch was answered no and policy decided as for the base is the run of the base; nothing is assumed about questions the run did not ask |
| MergeProofs.MergingIsConservative | backend/src/replayforge/runs/discovery_suite.py:537-683 | so it is for every merge that is accepted, on surfaces where the blocker can appear too: same dispatches, effects, outputs, pauses and result |
| MergeProofs.MergedRunsActAtMostOnce | backend/src/replayforge/runs/discovery_suite.py:645-656 | on honest surfaces a merged step acts at most once if no recovery of the primary leads back to it, merged recoveries included |
| MergeProofs.MergedStepActsOnceExactly | backend/src/replayforge/runs/discovery_suite.py:645-656 | for every valid primary a merged step acts at most once on every surface if and only if the primary's step does not operate the surface, or allows no retry and is never led back to |
| Policy.AllowsExactly | backend/src/replayforge/policy/evaluator.py:78-187 | an action is allowed if and only if owner, mode, lists and field permit it and no voice about its risk goes beyond reversible or the ceiling |
| Policy.SeeksApprovalExactly | backend/src/replayforge/policy/evaluator.py:78-187 | approval is sought exactly for what is sensitive and not irreversible within the ceiling; all else is denied |
| Discovery.Explorer.Run | backend/src/replayforge/discovery/engine.py:410-633 | the discovery loop over local variables computes the specified exploration |
| Discovery.RestoredCompiles | backend/src/replayforge/discovery/compiler.py:292-316 | a verified restored state survives compilation into corrective steps |
| Discovery.SuccessIsEvident | backend/src/replayforge/discovery/engine.py:493-520 | every success of a scenario carries its marker, stops at a terminal one, can rejoin and has low-risk corrective steps |
| Discovery.EveryStepIsWarranted | backend/src/replayforge/discovery/engine.py:890-1124 | every step of an artifact that a discovery yields was, in some turn, permitted by every check of policy, took effect, and had everything it claimed confirmed |
| Discovery.EveryStepDoesWhatWasSeen | backend/src/replayforge/discovery/engine.py:890-1124 | each compiled step is the action of a justified, confident proposal on the control found for it, with exactly the confirmed claims as postconditions |
| Discovery.SuccessIsVerified | backend/src/replayforge/discovery/engine.py:681-751 | a success was verified in the turn that ended it: checkpoint true, outputs fit, nothing private, start and end of the discovery as precondition and checkpoint, the contract as requested, and for a recovery the step to rejoin ready |
| Discovery.HandoffForgets | backend/src/replayforge/discovery/engine.py:307-345 | a handoff drops every captured output and the repetition counters, or ends the discovery |
| Discovery.GuardsAreKept | backend/src/replayforge/discovery/engine.py:410-633 | a recorded action that is repeated is expected to show every identity guard of the recorded step |
| Discovery.ProducerMeetsConsumer | backend/src/replayforge/runs/discovery_suite.py:556-633 | the merge never rejects a successful scenario discovery for its marker, terminal stop, rejoin, corrective risk or restored state |
| Discovery.HighestIsExact | backend/src/replayforge/discovery/compiler.py:109-111 | the declared capability risk is the highest executed one |
| Suite.ServeKeeps | backend/src/replayforge/runs/discovery_suite.py:253-521 | every sequence of service calls keeps the gate's invariant on every suite |
| Suite.PublishedIsEarned | backend/src/replayforge/runs/discovery_suite.py:400-499 | a published artifact is the merge of its primary and scenarios, proved on the suite's tenant and on each added one, with no step above reversible |
| Suite.PublishedWasSeenToWork | backend/src/replayforge/runs/discovery_suite.py:50-60 | for what was published, replays are logged: the primary succeeded unaided, each terminal scenario ended in its own code unaided, each recovery scenario succeeded through just that recovery |
| Suite.PublishedIsFinal | backend/src/replayforge/runs/discovery_suite.py:346-521 | no later operation changes a published suite |
| Suite.ExtendsExactly | backend/src/replayforge/runs/discovery_suite.py:293-327 | when a published program is taken up again: it still succeeds unaided where it is to be used |
| Suite.AddsExactly | backend/src/replayforge/runs/discovery_suite.py:346-398 | when a scenario joins a suite, under which code, and that earlier validation no longer counts |
| Suite.AdmitsTenantExactly | backend/src/replayforge/runs/discovery_suite.py:449-489 | when one more tenant is admitted: every replay there ends as declared |
| Suite.PublishesExactly | backend/src/replayforge/runs/discovery_suite.py:400-447 | a suite is published if and only if it exists, is open, merges, is low-risk, a validator is there and ends every replay asked for as declared, and the registry accepts |
| Suite.DiscoverySuiteService.ProveAll | backend/src/replayforge/runs/discovery_suite.py:489-499 | the loop over scenario replays asks in order, logs each answer and stops at the first that does not end as declared |
| Bank.AmountsRoundTrip | apps/demo-bank/lib/servicing/bank.ts:136-150 | every amount in range survives being written and parsed |
| Bank.DaysAreConsecutive | apps/demo-bank/lib/servicing/bank.ts:209-223 | day numbers follow the calendar across months and leap years |
| BankCommands.TransfersExactly | apps/demo-bank/lib/servicing/bank.ts:292-339 | under a new key a transfer goes through exactly between different open deposit accounts of an unrestricted member for an available amount with a purpose; it moves that amount from source to target, leaves all other balances alone, and the receipt says so |
| BankCommands.CardsSwitchExactly | apps/demo-bank/lib/servicing/bank.ts:340-366 | when a card is locked or unlocked, and that only its status changes |
| BankCommands.HoldsExactly | apps/demo-bank/lib/servicing/bank.ts:367-398 | when a supervisor's hold is placed, and that only what its account has available falls, by the amount |
| BankCommands.ReleasesExactly | apps/demo-bank/lib/servicing/bank.ts:399-421 | when a hold is released, and that its amount is available again |
| BankCommands.QuotesExactly | apps/demo-bank/lib/servicing/bank.ts:422-437 | when a loan is quoted, for exactly the days between its two dates, and what the quote shows |
| BankCommands.DatesRoundTrip | apps/demo-bank/lib/servicing/bank.ts:209-223 | a date written out is read back as its day, and one the calendar does not have is refused |
| BankCommands.CasesOpenExactly | apps/demo-bank/lib/servicing/bank.ts:438-463 | when a case is opened, and what it holds |
| BankCommands.CasesResolveExactly | apps/demo-bank/lib/servicing/bank.ts:464-487 | when a case of the member is resolved, and that only its status and resolution change |
| Bank.CompletedIsForever | apps/demo-bank/lib/servicing/bank.ts:272-283 | a completed key gives its original receipt and changes nothing at any later time; other instructions under it conflict |
| Bank.CardChangeIsUndone | apps/demo-bank/lib/servicing/bank.ts:340-366 | a posted lock can be undone under a new key exactly when the state at hand is quoted with a reason, and then the whole bank but the record of the two postings is as before |
| Bank.HoldIsUndone | apps/demo-bank/lib/servicing/bank.ts:367-420 | a posted hold is found by its reference and released under a new key exactly when the state at hand is quoted with a reason, and then every account has available what it had |
| Bank.RunFresh | apps/demo-bank/lib/servicing/bank.ts:255-290 | along every run holds and journal entries have references of their own, and the next reference is new |
| Bank.TransferConserves | apps/demo-bank/lib/servicing/bank.ts:312-331 | debit and credit leave the sum of ledgers as it was |
| Bank.MoneyIsConserved | apps/demo-bank/lib/servicing/bank.ts:151-168 | over every run totals are constant, nothing is overdrawn, and every partial sum stays within a fixed bound |
| Bank.QuotesNeverVary | apps/demo-bank/lib/servicing/bank.ts:224-253 | a payoff quote for a date is the same at every later time |
| Bank.InterestIsRounded | apps/demo-bank/lib/servicing/bank.ts:241-245 | interest is within half a cent of exact, and half a cent rounds up |
| Bank.InterestGrows | apps/demo-bank/lib/servicing/bank.ts:241-245 | more days never cost less |
| Bank.SplittingCostsACent | apps/demo-bank/lib/servicing/bank.ts:241-245 | splitting a period changes the interest by at most one cent |
| Bank.QuotesAreFair | apps/demo-bank/lib/servicing/bank.ts:224-253 | in every reachable state a quote adds up and its interest is exact to half a cent |
| BankPosting.ExecuteOnClone | apps/demo-bank/lib/servicing/bank.ts:255-507 | pushing and assigning on the clone computes the specified result and leaves the original alone |
| BankSeed.SeedIsSolvent | apps/demo-bank/lib/servicing/bank.ts:509-668 | the first bank is solvent and far from the limit of exact machine numbers |
| BankSeed.SessionConserves | apps/demo-bank/lib/servicing/bank.ts:255-507 | from the first bank every balance ever computed is exact and non-negative |
| BankSeed.SessionStaysFresh | apps/demo-bank/lib/servicing/bank.ts:509-668 | that holds in every bank reached from the first one, whose authorizations have a prefix of their own |
| Workspace.KeysDiffer | apps/demo-bank/lib/servicing/workspace.ts:342 | request keys of different numbers differ |
| Workspace.SessionKeeps | apps/demo-bank/lib/servicing/workspace.ts:150-364 | what every sequence of clicks and edits keeps |
| Workspace.FromIsRun | apps/demo-bank/lib/servicing/workspace.ts:150-364 | the bank changes only through confirmed operations and role changes; reviewing never touches it |
| Workspace.ConfirmPostsWhatWasShown | apps/demo-bank/lib/servicing/workspace.ts:263-279 | whenever an operation is under review, confirming posts it once with the previewed receipt under a new key |
| Workspace.SessionsReviewTheForm | apps/demo-bank/lib/servicing/workspace.ts:280-360 | in every session an operation under review is for the member at hand and holds what was entered |
| Workspace.ReviewIsWhatWasAsked | apps/demo-bank/lib/servicing/workspace.ts:280-360 | a review proposes the operation its action stands for, on the selected record: lock or unlock, this hold, this case |
| Workspace.SessionsAreAccounted | apps/demo-bank/lib/servicing/workspace.ts:336-360 | revision, journal and completed keys count alike, and every journalled notice was acknowledged |
| Workspace.SessionsConserveMoney | apps/demo-bank/lib/servicing/workspace.ts:150-364 | no sequence of actions overdraws an account or makes money |
| Viewer.NewestIsLongest | backend/src/replayforge/runs/viewing.py:239-243 | eviction keeps exactly the longest window of newest frames that fits |
| Viewer.NewestKeepsLast | backend/src/replayforge/runs/viewing.py:211-243 | the newest accepted frame is never evicted |
| Viewer.Execution.Accept | backend/src/replayforge/runs/viewing.py:211-243 | byte count and numbering stay exact, frames are those above the evicted ones |
| Viewer.Execution.Note | backend/src/replayforge/runs/viewing.py:245-259 | events held are the contiguous latest ones |
| Viewer.SomeFinished | backend/src/replayforge/runs/viewing.py:120-123 | the search for a finished execution to evict cannot fail |
| Viewer.ExecutionViewer.Expire | backend/src/replayforge/runs/viewing.py:151-159 | exactly the finished executions past their retention leave |
| Viewer.ExecutionViewer.Start | backend/src/replayforge/runs/viewing.py:113-133 | capacity limits hold, only finished executions give way, and starting is refused exactly at capacity or when closed |
| Viewer.ExecutionViewer.PublishFrame | backend/src/replayforge/runs/viewing.py:211-243 | a frame joins only its own live execution, and everything else is unchanged |
| Viewer.ExecutionViewer.Finish | backend/src/replayforge/runs/viewing.py:268-283 | only a live execution is concluded, once, and a pause keeps it active |

## Left out

- Clocks: each call reads the time once to check expiry and once to stamp; the model takes both readings as one pair of arbitrary numbers.
- Threads, locks, queues and worker shutdown: a locked region is one atomic step.
- Lease-only operations (`pause`, `claim`, `reclaim_expired`, `release`, `begin_resume`, `complete_resume`, `terminate` of `ControlLeaseService`): the runtime goes through the coordinator.
- Opening a session, compatibility validation, evidence, screenshots, recorded events and redaction.
- Invocation inputs are fixed for a replay and are part of the surface's answers; binding a target's inputs is part of resolving it.
- The continuation sink is taken to be present, and the engine's `_pause_points` dictionary is folded into the paused result it describes.
- A selected recovery is run after the step's error handling rather than inside it; recovery steps never raise a surface error, so the two orders agree.
- The order in which several outputs are read again on resumption, sorted by name in the program, is an arbitrary fixed order.
- Text matching, geometry, contract schemas, paths into inputs and identifier patterns in artifact validation; timeouts and backoff delays.
- ReplayComplete.SuccessHasActed: speaks of runs without a handoff, since for a step that a human stood in for nothing need have been handed over; steps that a recovery jumped over are exempt here and in ReplayComplete.SuccessLeavesNothingOut.
- ReplayCauses.StepEndsForACause: the causes of failures are existential over worlds, not located within the attempt; those of a done step, an outcome and a recovery are located by `Since`.
- MergeProofs.MergingIsConservative: a no that changes the page it was asked about is not a plain no, since the primary would not have asked; the run is then compared no further.
- ReplayLease.LifeIsMirrored: within one segment the replay's calls follow each other in the store, at one reading of the clock; what others do to the lease meanwhile is ReplayLease.InterferenceIsNoticed.
- Capability.Validated: checks the properties listed there; the remaining checks of the constructor reject more artifacts.
- Discovery: planning the contract, provider calls, histories shown to the model, route narrowing and landmark checks are answers of the environment; lease renewals inside an action count among its answers.
- Discovery.ProducerMeetsConsumer: says nothing about distinctive branch conditions and shared prefixes, which discovery does not enforce; redacting contract descriptions may also change the contract that the merge compares.
- Suite: the validator and the registry are oracles; version arithmetic and hashing are not modelled, and suites are saved one at a time as in the repository's plain get and save.
- Bank: member addresses and display fields, money formatting, and Unicode white space in trimming; a command stands for its JSON text.
- Workspace: building views, and pages' titles; error messages are reduced to their codes.
- Viewer: tokens and their hashes, snapshots, phases set from outside, and the reaper thread; clock readings are positive.
- Provider clients, HTTP interfaces, user interfaces, settings and observability.
