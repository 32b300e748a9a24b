/**
A surface that acts out a script: what it answers, question by question, is the world. It can be told to let a
step pass, to let it pass and show one recovery's trigger, or to deny an effect it had.
*/
module ReplayStage {
  import opened Prelude
  import opened Capability
  import opened Replay
  import opened ReplayProofs

  /** The answers a surface has still to give. */
  datatype Script = End | Say(answer: bool, rest: Script)

  function Heard(script: Script): bool {
    script.Say? && script.answer
  }

  function Later(script: Script): Script {
    if script.Say? then script.rest else script
  }

  /**
  Conditions are answered from the script. An action always takes effect; when the script says no, the
  surface raises `error` all the same.
  */
  function Scripted(error: SurfaceError): Surface<Script> {
    Surface(
      w => (Says(Observation("page", true)), w),
      (w, _) => (Says("handle"), w),
      (w, _, _) => (Says(Heard(w)), Later(w)),
      (w, _, _) => (Says(true), w),
      (w, _, _) => (Says("text"), w),
      (w, _, _) => Execution(if Heard(w) then Says(Completed) else Fails(error), true, Later(w)),
      w => (Says(()), w),
      (_, _, _, _) => Says(Allow),
      _ => false,
      _ => true,
      _ => [])
  }

  /** An invocation that can start: the first variant, valid inputs. */
  function Staged(a: Artifact, error: SurfaceError): Job<Script>
    requires |a.variants| > 0
  {
    Job(a, a.variants[0], true, true, Scripted(error), Idle())
  }

  // ---------------------------------------------------------------- the answers a run asks for

  function Trues(n: nat, rest: Script): Script {
    if n == 0 then rest else Say(true, Trues(n - 1, rest))
  }

  function Falses(n: nat, rest: Script): Script {
    if n == 0 then rest else Say(false, Falses(n - 1, rest))
  }

  /** A yes for one reference only. */
  function Choosing(refs: seq<Id>, id: Id, rest: Script): Script {
    if refs == [] then rest else Say(refs[0] == id, Choosing(refs[1..], id, rest))
  }

  function Confirming(conditions: seq<Condition>, n: nat, rest: Script): Script {
    if conditions == [] then rest
    else if ContainsIdentity(conditions[0]) then Confirming(conditions[1..], n, rest)
    else Falses(n, Confirming(conditions[1..], n, rest))
  }

  function Verifying(step: Step, rest: Script): Script {
    Falses(|step.outcomeRefs|, Falses(|step.failureRefs|, Falses(|step.recoveryRefs|,
      Confirming(step.body.postconditions, |step.outcomeRefs|, rest))))
  }

  function Acting(step: Step, rest: Script): Script {
    if step.body.action.Operate? || step.body.action.Assert? || step.body.action.CheckpointReached? then Say(true, rest)
      else rest
  }

  function Passing(step: Step, rest: Script): Script {
    Trues(|step.body.preconditions|, Acting(step, Verifying(step, rest)))
  }

  function AllPassing(steps: seq<Step>, rest: Script): Script {
    if steps == [] then rest else Passing(steps[0], AllPassing(steps[1..], rest))
  }

  /** The step's action goes through, and then the trigger of one of its recoveries shows. */
  function Interrupted(step: Step, id: Id, rest: Script): Script {
    Trues(|step.body.preconditions|, Acting(step,
      Falses(|step.outcomeRefs|, Falses(|step.failureRefs|, Choosing(step.recoveryRefs, id, rest)))))
  }

  /** So many attempts of the step, each of which takes effect and is denied. */
  function Striking(step: Step, n: nat): Script {
    if n == 0 then End else Trues(|step.body.preconditions|, Say(false, Striking(step, n - 1)))
  }

  // ---------------------------------------------------------------- an attempt follows the script

  /** A scripted job, whose artifact declares what its steps refer to. */
  ghost predicate OnStage(job: Job<Script>, error: SurfaceError) {
    job.surface == Scripted(error) && AllKnown(job.artifact)
  }

  /** A step that can be played: its branches are declared, and what it extracts from is known. */
  ghost predicate Playable(a: Artifact, step: Step) {
    Known(a, step) && (step.body.action.Extract? ==> step.body.target.Some?)
  }

  lemma {:induction false} TruesHold(job: Job<Script>, error: SurfaceError, conditions: seq<Condition>,
                                     run: Run<Script>, rest: Script)
    requires OnStage(job, error) && run.world == Trues(|conditions|, rest)
    ensures
      var out := AllEvaluate(job, conditions, run);
      out.reply == Value(true) && out.run.world == rest
  {
    if conditions != [] {
      TruesHold(job, error, conditions[1..], Evaluate(job, conditions[0], run).run, rest);
    }
  }

  lemma {:induction false} FalsesMatchNothing(job: Job<Script>, error: SurfaceError, kind: Branching, refs: seq<Id>,
                                              indexed: map<Id, Condition>, run: Run<Script>, rest: Script)
    requires OnStage(job, error) && run.world == Falses(|refs|, rest) && (forall id <- refs :: id in indexed)
    ensures
      var out := Matching(job, kind, refs, indexed, run);
      out.reply == Value([]) && out.run.world == rest
  {
    if refs != [] {
      FalsesMatchNothing(job, error, kind, refs[1..], indexed, Ask(job, kind, refs[0], indexed[refs[0]], run).run,
                         rest);
    }
  }

  lemma NothingDetected(job: Job<Script>, error: SurfaceError, kind: Branching, refs: seq<Id>,
                        indexed: map<Id, Condition>, run: Run<Script>, rest: Script)
    requires OnStage(job, error) && run.world == Falses(|refs|, rest) && (forall id <- refs :: id in indexed)
    ensures
      var out := Detect(job, kind, refs, indexed, run);
      out.reply == Value(None) && out.run.world == rest
  {
    FalsesMatchNothing(job, error, kind, refs, indexed, run, rest);
  }

  lemma {:induction false} ChosenMatches(job: Job<Script>, error: SurfaceError, kind: Branching, refs: seq<Id>,
                                         id: Id, indexed: map<Id, Condition>, run: Run<Script>, rest: Script)
    requires OnStage(job, error) && run.world == Choosing(refs, id, rest) && Unique(refs)
    requires forall ref <- refs :: ref in indexed
    ensures
      var out := Matching(job, kind, refs, indexed, run);
      out.reply == Value(if id in refs then [id] else []) && out.run.world == rest
  {
    if refs != [] {
      assert refs[0] !in refs[1..];
      ChosenMatches(job, error, kind, refs[1..], id, indexed, Ask(job, kind, refs[0], indexed[refs[0]], run).run, rest);
      if refs[0] == id {
        assert [id] + [] == [id];
      }
    }
  }

  lemma {:induction false} IdentityPasses(job: Job<Script>, error: SurfaceError, conditions: seq<Condition>,
                                          run: Run<Script>)
    requires OnStage(job, error)
    ensures
      var out := IdentityVerified(job, conditions, run);
      out.reply == Value(true) && out.run.world == run.world
  {
    if conditions != [] {
      IdentityPasses(job, error, conditions[1..], run);
      IdentityPasses(job, error, conditions[1..], WaitUntil(job, conditions[0], run).run);
    }
  }

  /** Neither an outcome nor a failure shows. */
  lemma NeitherShows(job: Job<Script>, error: SurfaceError, step: Step, run: Run<Script>, rest: Script)
    requires OnStage(job, error) && Known(job.artifact, step)
    requires run.world == Falses(|step.outcomeRefs|, Falses(|step.failureRefs|, rest))
    ensures
      var outcome := Detect(job, Outcomes, step.outcomeRefs, Detectors(job.artifact.outcomes), run);
      var failure := Detect(job, Failures, step.failureRefs, Detectors(job.artifact.failures), outcome.run);
      outcome.reply == Value(None) && failure.reply == Value(None) && failure.run.world == rest
  {
    var a := job.artifact;
    NothingDetected(job, error, Outcomes, step.outcomeRefs, Detectors(a.outcomes), run,
                    Falses(|step.failureRefs|, rest));
    var outcome := Detect(job, Outcomes, step.outcomeRefs, Detectors(a.outcomes), run).run;
    NothingDetected(job, error, Failures, step.failureRefs, Detectors(a.failures), outcome, rest);
  }

  lemma EarlyPasses(job: Job<Script>, error: SurfaceError, step: Step, run: Run<Script>, recover: bool, rest: Script)
    requires OnStage(job, error) && Known(job.artifact, step) && (recover || step.recoveryRefs == [])
    requires run.world == Falses(|step.outcomeRefs|, Falses(|step.failureRefs|, Falses(|step.recoveryRefs|, rest)))
    ensures
      var out := EarlyBranch(job, step, run, recover);
      out.reply == Value(Done) && out.run.world == rest
  {
    var a := job.artifact;
    NeitherShows(job, error, step, run, Falses(|step.recoveryRefs|, rest));
    var outcome := Detect(job, Outcomes, step.outcomeRefs, Detectors(a.outcomes), run).run;
    var failure := Detect(job, Failures, step.failureRefs, Detectors(a.failures), outcome).run;
    if recover {
      NothingDetected(job, error, Recoveries, step.recoveryRefs, Triggers(a.recoveries), failure, rest);
    }
  }

  lemma {:induction false} ConfirmPasses(job: Job<Script>, error: SurfaceError, step: Step, conditions: seq<Condition>,
                                         run: Run<Script>, version: nat, recover: bool, allow: bool, rest: Script)
    requires OnStage(job, error) && Known(job.artifact, step)
    requires run.world == Confirming(conditions, |step.outcomeRefs|, rest)
    ensures
      var out := Confirm(job, step, conditions, run, version, 1, recover, allow);
      out.reply == Value(Done) && out.run.world == rest
    decreases |conditions|
  {
    if conditions != [] {
      if ContainsIdentity(conditions[0]) {
        ConfirmPasses(job, error, step, conditions[1..], run, version, recover, allow, rest);
      } else {
        var waited := WaitUntil(job, conditions[0], run).run;
        NothingDetected(job, error, Outcomes, step.outcomeRefs, Detectors(job.artifact.outcomes), waited,
                        Confirming(conditions[1..], |step.outcomeRefs|, rest));
        var outcome := Detect(job, Outcomes, step.outcomeRefs, Detectors(job.artifact.outcomes), waited).run;
        ConfirmPasses(job, error, step, conditions[1..], outcome, version, recover, allow, rest);
      }
    }
  }

  lemma VerifyPasses(job: Job<Script>, error: SurfaceError, step: Step, run: Run<Script>, version: nat,
                     recover: bool, allow: bool, rest: Script)
    requires OnStage(job, error) && Known(job.artifact, step) && (recover || step.recoveryRefs == [])
    requires run.world == Verifying(step, rest)
    ensures
      var out := Verify(job, step, run, version, 1, recover, allow);
      out.reply == Value(Done) && out.run.world == rest
  {
    IdentityPasses(job, error, step.body.postconditions, run);
    var identity := IdentityVerified(job, step.body.postconditions, run).run;
    var confirming := Confirming(step.body.postconditions, |step.outcomeRefs|, rest);
    EarlyPasses(job, error, step, identity, recover, confirming);
    var early := EarlyBranch(job, step, identity, recover).run;
    ConfirmPasses(job, error, step, step.body.postconditions, early, version, recover, allow, rest);
  }

  lemma PreparePasses(job: Job<Script>, error: SurfaceError, step: Step, run: Run<Script>, version: nat,
                      allow: bool, rest: Script)
    requires OnStage(job, error) && run.lease == Lease(version, true)
    requires run.world == Trues(|step.body.preconditions|, rest)
    ensures
      var out := Prepare(job, step, run, version, allow);
      && out.reply == Value(Go(if step.body.target.Some? then Some("handle") else None))
      && out.run.world == rest && out.run.lease == run.lease
  {
    TruesHold(job, error, step.body.preconditions, run, rest);
  }

  /** What the action of a step adds to the effects when it goes through. */
  function Effect(step: Step): seq<Id> {
    if step.body.action.Operate? then [step.id] else []
  }

  lemma PerformPasses(job: Job<Script>, error: SurfaceError, step: Step, target: Option<string>, run: Run<Script>,
                      rest: Script)
    requires OnStage(job, error) && run.world == Acting(step, rest) && (step.body.action.Extract? ==> target.Some?)
    ensures
      var out := Perform(job, step, target, run);
      out.reply == Value(()) && out.run.world == rest && out.run.effects == run.effects + Effect(step)
  {
    assert run.effects + [] == run.effects;
  }

  /** An attempt up to its checks, which then decide how it ends. */
  lemma AttemptActs(job: Job<Script>, error: SurfaceError, step: Step, run: Run<Script>, version: nat,
                    recover: bool, allow: bool, rest: Script) returns (acted: Run<Script>)
    requires OnStage(job, error) && Playable(job.artifact, step) && run.lease == Lease(version, true)
    requires run.world == Trues(|step.body.preconditions|, Acting(step, rest))
    ensures acted.world == rest && acted.effects == run.effects + Effect(step)
    ensures acted.lease == run.lease && acted.uses == run.uses
    ensures Try(job, step, run, version, 1, recover, allow).out == Verify(job, step, acted, version, 1, recover, allow)
  {
    PreparePasses(job, error, step, run, version, allow, Acting(step, rest));
    var prepared := Prepare(job, step, run, version, allow);
    PerformPasses(job, error, step, prepared.reply.value.target, prepared.run, rest);
    acted := Perform(job, step, prepared.reply.value.target, prepared.run).run;
  }

  lemma StepPasses(job: Job<Script>, error: SurfaceError, step: Step, run: Run<Script>, version: nat,
                   recover: bool, allow: bool, rest: Script)
    requires OnStage(job, error) && Playable(job.artifact, step) && (recover || step.recoveryRefs == [])
    requires run.lease == Lease(version, true) && run.world == Passing(step, rest)
    ensures
      var out := ExecuteStep(job, step, run, version, 1, recover, allow);
      && out.reply == Value(Done) && out.run.world == rest
      && out.run.lease == run.lease && out.run.uses == run.uses && out.run.effects == run.effects + Effect(step)
  {
    var acted := AttemptActs(job, error, step, run, version, recover, allow, Verifying(step, rest));
    VerifyPasses(job, error, step, acted, version, recover, allow, rest);
    StepAfterTry(job, step, run, version, 1, recover, allow);
  }

  // ---------------------------------------------------------------- a recovery is triggered

  lemma TriggerShows(job: Job<Script>, error: SurfaceError, step: Step, r: Recovery, run: Run<Script>, rest: Script)
    requires OnStage(job, error) && Known(job.artifact, step) && Unique(step.recoveryRefs)
    requires r.id in step.recoveryRefs && FindRecovery(job.artifact.recoveries, r.id) == Some(r)
    requires Uses(run.uses, r.id) < r.maxUses && run.world == Choosing(step.recoveryRefs, r.id, rest)
    ensures
      var out := SelectRecovery(job, step, run);
      out.reply == Value(Some(Recover(r.id))) && out.run.world == rest
  {
    ChosenMatches(job, error, Recoveries, step.recoveryRefs, r.id, Triggers(job.artifact.recoveries), run, rest);
  }

  lemma VerifyInterrupted(job: Job<Script>, error: SurfaceError, step: Step, r: Recovery, run: Run<Script>,
                          version: nat, rest: Script)
    requires OnStage(job, error) && Known(job.artifact, step) && Unique(step.recoveryRefs)
    requires r.id in step.recoveryRefs && FindRecovery(job.artifact.recoveries, r.id) == Some(r)
    requires Uses(run.uses, r.id) < r.maxUses
    requires run.world == Falses(|step.outcomeRefs|,
                                 Falses(|step.failureRefs|, Choosing(step.recoveryRefs, r.id, rest)))
    ensures
      var out := Verify(job, step, run, version, 1, true, true);
      out.reply == Value(Recover(r.id)) && out.run.world == rest
  {
    var a := job.artifact;
    IdentityPasses(job, error, step.body.postconditions, run);
    var identity := IdentityVerified(job, step.body.postconditions, run).run;
    NeitherShows(job, error, step, identity, Choosing(step.recoveryRefs, r.id, rest));
    var outcome := Detect(job, Outcomes, step.outcomeRefs, Detectors(a.outcomes), identity).run;
    var failure := Detect(job, Failures, step.failureRefs, Detectors(a.failures), outcome).run;
    TriggerShows(job, error, step, r, failure, rest);
    assert EarlyBranch(job, step, identity, true).reply == Value(Recover(r.id));
  }

  lemma StepInterrupted(job: Job<Script>, error: SurfaceError, step: Step, r: Recovery, run: Run<Script>,
                        version: nat, rest: Script)
    requires OnStage(job, error) && Playable(job.artifact, step) && Unique(step.recoveryRefs)
    requires r.id in step.recoveryRefs && FindRecovery(job.artifact.recoveries, r.id) == Some(r)
    requires Uses(run.uses, r.id) < r.maxUses
    requires run.lease == Lease(version, true) && run.world == Interrupted(step, r.id, rest)
    ensures
      var out := ExecuteStep(job, step, run, version, 1, true, true);
      && out.reply == Value(Recover(r.id)) && out.run.world == rest
      && out.run.lease == run.lease && out.run.effects == run.effects + Effect(step)
  {
    var branches := Falses(|step.outcomeRefs|, Falses(|step.failureRefs|, Choosing(step.recoveryRefs, r.id, rest)));
    var acted := AttemptActs(job, error, step, run, version, true, true, branches);
    VerifyInterrupted(job, error, step, r, acted, version, rest);
    StepAfterTry(job, step, run, version, 1, true, true);
  }

  lemma {:induction false} RecoveryPasses(job: Job<Script>, error: SurfaceError, steps: seq<Step>, run: Run<Script>,
                                          version: nat, rest: Script)
    requires OnStage(job, error) && (forall step <- steps :: Playable(job.artifact, step) && step.recoveryRefs == [])
    requires run.lease == Lease(version, true) && run.world == AllPassing(steps, rest)
    ensures
      var out := RecoverFrom(job, steps, run, version);
      && out.reply.Value? && out.reply.value.Restored? && out.run.world == rest
      && out.run.lease == Lease(out.reply.value.version, true)
    decreases |steps|
  {
    if steps != [] {
      StepPasses(job, error, steps[0], run, version, false, false, AllPassing(steps[1..], rest));
      var stepped := ExecuteStep(job, steps[0], run, version, 1, false, false).run;
      RecoveryGoesOn(job, steps, run, version, stepped);
      RecoveryPasses(job, error, steps[1..], stepped.(lease := Lease(version + 1, true)), version + 1, rest);
    }
  }

  lemma ExecuteRecoveryPasses(job: Job<Script>, error: SurfaceError, r: Recovery, run: Run<Script>, version: nat,
                              rest: Script)
    requires OnStage(job, error) && (forall step <- r.steps :: Playable(job.artifact, step) && step.recoveryRefs == [])
    requires run.lease == Lease(version, true) && run.world == AllPassing(r.steps, rest)
    ensures
      var out := ExecuteRecovery(job, r, run, version);
      && out.reply.Value? && out.reply.value.Restored? && out.run.world == rest
      && out.run.lease == Lease(out.reply.value.version, true)
  {
    var started := Started(run, r);
    var beat := Heartbeat(job, started, version);
    assert beat == Out(Value(version + 1), started.(lease := Lease(version + 1, true)));
    RecoveryPasses(job, error, r.steps, beat.run, version + 1, rest);
  }

  // ---------------------------------------------------------------- rounds of the main loop

  lemma RoundPasses(job: Job<Script>, error: SurfaceError, run: Run<Script>, version: nat, index: nat, rest: Script)
    requires OnStage(job, error) && index < |job.artifact.steps| && Playable(job.artifact, job.artifact.steps[index])
    requires run.lease == Lease(version, true) && run.world == Passing(job.artifact.steps[index], rest)
    ensures
      var round := DriveOnce(job, run, version, index, (0, 1));
      && round.Next? && round.index == index + 1
      && round.run.world == rest && round.run.lease == Lease(round.version, true)
      && round.run.uses == run.uses && round.run.effects == run.effects + Effect(job.artifact.steps[index])
  {
    var step, entered := job.artifact.steps[index], run.(entries := run.entries + 1);
    StepPasses(job, error, step, entered, version, true, true, rest);
    var last := ExecuteStep(job, step, entered, version, 1, true, true).run;
    DoneAdvances(job, run, version, index, (0, 1), last);
  }

  /** A recovery does not undo what main steps did. */
  lemma RecoverySpares<W>(job: Job<W>, r: Recovery, run: Run<W>, version: nat, id: Id)
    requires r in job.artifact.recoveries && id !in StepIds(RecoverySteps(job.artifact.recoveries))
    ensures multiset(ExecuteRecovery(job, r, run, version).run.effects)[id] == multiset(run.effects)[id]
  {
    if id in StepIds(r.steps) {
      RecoveryStepIds(job.artifact.recoveries, r, id);
    }
  }

  /** What a main step's attempts did is not undone by a recovery. */
  lemma FinishKeeps<W>(job: Job<W>, stepped: Out<W, StepEnd>, version: nat, id: Id)
    requires id !in StepIds(RecoverySteps(job.artifact.recoveries))
    ensures multiset(FinishMain(job, stepped, version).run.effects)[id] == multiset(stepped.run.effects)[id]
  {
    if stepped.reply.Value? && stepped.reply.value.Recover? {
      var found := FindRecovery(job.artifact.recoveries, stepped.reply.value.id);
      if found.Some? {
        RecoverySpares(job, found.value, stepped.run, version, id);
      }
    }
  }

  /** The recovery `r` of step `j` can be played, and leads back to step `k`. */
  ghost predicate Leads(a: Artifact, j: nat, r: Recovery, k: nat)
    requires j < |a.steps|
  {
    && Playable(a, a.steps[j]) && Unique(a.steps[j].recoveryRefs) && r.id in a.steps[j].recoveryRefs
    && FindRecovery(a.recoveries, r.id) == Some(r) && r.maxUses > 0
    && (forall step <- r.steps :: Playable(a, step) && step.recoveryRefs == [])
    && k < |a.steps| && IndexOf(a.steps, r.resumeAt) == Some(k)
  }

  lemma MainJumps(job: Job<Script>, error: SurfaceError, run: Run<Script>, version: nat, j: nat, r: Recovery, k: nat,
                  rest: Script, id: Id)
    requires OnStage(job, error) && j < |job.artifact.steps| && Leads(job.artifact, j, r, k)
    requires run.lease == Lease(version, true) && run.uses == map[]
    requires run.world == Interrupted(job.artifact.steps[j], r.id, AllPassing(r.steps, rest))
    requires id !in StepIds(RecoverySteps(job.artifact.recoveries))
    ensures
      var main := ExecuteMain(job, job.artifact.steps[j], run, version, 1);
      && main.reply.Value? && main.reply.value.Jump? && main.reply.value.to == r.resumeAt
      && main.run.lease == Lease(main.reply.value.version, true) && main.run.world == rest
      && multiset(main.run.effects)[id] == multiset(run.effects + Effect(job.artifact.steps[j]))[id]
  {
    var step, entered := job.artifact.steps[j], run.(entries := run.entries + 1);
    StepInterrupted(job, error, step, r, entered, version, AllPassing(r.steps, rest));
    var m := ExecuteStep(job, step, entered, version, 1, true, true).run;
    ExecuteRecoveryPasses(job, error, r, m, version, rest);
    var recovered := ExecuteRecovery(job, r, m, version);
    RecoveryJumps(job, step, run, version, r, m, recovered.reply.value.version, recovered.run);
    RecoverySpares(job, r, m, version, id);
  }

  lemma RoundJumps(job: Job<Script>, error: SurfaceError, run: Run<Script>, version: nat, j: nat, r: Recovery, k: nat,
                   rest: Script, id: Id)
    requires OnStage(job, error) && j < |job.artifact.steps| && Leads(job.artifact, j, r, k)
    requires run.lease == Lease(version, true) && run.uses == map[]
    requires run.world == Interrupted(job.artifact.steps[j], r.id, AllPassing(r.steps, rest))
    requires id !in StepIds(RecoverySteps(job.artifact.recoveries))
    ensures
      var round := DriveOnce(job, run, version, j, (0, 1));
      && round.Next? && round.index == k && round.run.world == rest && round.run.lease == Lease(round.version, true)
      && multiset(round.run.effects)[id] == multiset(run.effects + Effect(job.artifact.steps[j]))[id]
  {
    MainJumps(job, error, run, version, j, r, k, rest, id);
    RoundSettles(job, run, version, j, (0, 1));
    JumpLands(job, ExecuteMain(job, job.artifact.steps[j], run, version, 1), version, j, k);
  }

  // ---------------------------------------------------------------- a step strikes

  /** One attempt takes effect and is denied. */
  lemma TryDenied(job: Job<Script>, error: SurfaceError, step: Step, run: Run<Script>, version: nat, attempt: nat,
                  rest: Script)
    requires OnStage(job, error) && run.lease == Lease(version, true) && step.body.action.Operate?
    requires run.world == Trues(|step.body.preconditions|, Say(false, rest))
    ensures
      var out := Try(job, step, run, version, attempt, true, true).out;
      && out.reply == Raised(error) && out.run.world == rest
      && out.run.lease == run.lease && out.run.effects == run.effects + [step.id]
  {
    PreparePasses(job, error, step, run, version, true, Say(false, rest));
  }

  lemma AttemptCounts(job: Job<Script>, error: SurfaceError, step: Step, run: Run<Script>, version: nat, attempt: nat)
    requires OnStage(job, error) && run.lease == Lease(version, true) && step.body.action.Operate?
    requires run.world == Striking(step, 1)
    ensures multiset(ExecuteStep(job, step, run, version, attempt, true, true).run.effects)[step.id]
         >= multiset(run.effects)[step.id] + 1
  {
    TryDenied(job, error, step, run, version, attempt, End);
    StepAfterTry(job, step, run, version, attempt, true, true);
    var after := Try(job, step, run, version, attempt, true, true).out.run;
    assert multiset(after.effects)[step.id] == multiset(run.effects)[step.id] + 1;
  }

  /** How often a step can be made to take effect in a row: twice if the error may be answered by a retry. */
  predicate Strikes(step: Step, error: SurfaceError, n: nat) {
    step.body.action.Operate? && (n == 1 || (n == 2 && Retryable(step, error, 1)))
  }

  lemma StepStrikes(job: Job<Script>, error: SurfaceError, step: Step, run: Run<Script>, version: nat, n: nat)
    requires OnStage(job, error) && run.lease == Lease(version, true)
    requires Strikes(step, error, n) && run.world == Striking(step, n)
    ensures multiset(ExecuteStep(job, step, run, version, 1, true, true).run.effects)[step.id]
         >= multiset(run.effects)[step.id] + n
  {
    if n == 1 {
      AttemptCounts(job, error, step, run, version, 1);
    } else {
      TryDenied(job, error, step, run, version, 1, Striking(step, 1));
      StepAfterTry(job, step, run, version, 1, true, true);
      var after := Try(job, step, run, version, 1, true, true).out.run;
      assert multiset(after.effects)[step.id] == multiset(run.effects)[step.id] + 1;
      AttemptCounts(job, error, step, Repeating(step, run, after), version, 2);
    }
  }

  // ---------------------------------------------------------------- the main loop

  /** What has taken effect stays so. */
  lemma {:induction false} DriveKeeps<W>(job: Job<W>, run: Run<W>, version: nat, index: nat, first: (nat, nat), id: Id)
    requires index <= |job.artifact.steps| && id !in StepIds(RecoverySteps(job.artifact.recoveries))
    ensures multiset(RunOf(Drive(job, run, version, index, first)).effects)[id] >= multiset(run.effects)[id]
    decreases Budget(job.artifact.recoveries, run.uses), |job.artifact.steps| - index
  {
    if index < |job.artifact.steps| {
      var step, attempt := job.artifact.steps[index], AttemptAt(index, first);
      SettleRemembers(job, ExecuteMain(job, step, run, version, attempt), version, index);
      match DriveOnce(job, run, version, index, first) {
        case Over(_) =>
        case Next(run', version', index') => DriveKeeps(job, run', version', index', first, id);
      }
    }
  }

  lemma MainStrikes(job: Job<Script>, error: SurfaceError, run: Run<Script>, version: nat, i: nat, n: nat)
    requires OnStage(job, error) && i < |job.artifact.steps| && run.lease == Lease(version, true)
    requires Strikes(job.artifact.steps[i], error, n) && run.world == Striking(job.artifact.steps[i], n)
    requires job.artifact.steps[i].id !in StepIds(RecoverySteps(job.artifact.recoveries))
    ensures
      var step := job.artifact.steps[i];
      multiset(ExecuteMain(job, step, run, version, 1).run.effects)[step.id] >= multiset(run.effects)[step.id] + n
  {
    var step, entered := job.artifact.steps[i], run.(entries := run.entries + 1);
    StepStrikes(job, error, step, entered, version, n);
    MainIsFinish(job, step, run, version, 1);
    FinishKeeps(job, ExecuteStep(job, step, entered, version, 1, true, true), version, step.id);
  }

  lemma DriveStrikes(job: Job<Script>, error: SurfaceError, run: Run<Script>, version: nat, i: nat, n: nat)
    requires OnStage(job, error) && i < |job.artifact.steps| && run.lease == Lease(version, true)
    requires Strikes(job.artifact.steps[i], error, n) && run.world == Striking(job.artifact.steps[i], n)
    requires job.artifact.steps[i].id !in StepIds(RecoverySteps(job.artifact.recoveries))
    ensures
      var id := job.artifact.steps[i].id;
      multiset(RunOf(Drive(job, run, version, i, (0, 1))).effects)[id] >= multiset(run.effects)[id] + n
  {
    var step := job.artifact.steps[i];
    MainStrikes(job, error, run, version, i, n);
    SettleRemembers(job, ExecuteMain(job, step, run, version, 1), version, i);
    DriveGoesOn(job, run, version, i, (0, 1));
    match DriveOnce(job, run, version, i, (0, 1)) {
      case Over(_) =>
      case Next(run', version', index') => DriveKeeps(job, run', version', index', (0, 1), step.id);
    }
  }

  /** The loop passes the steps before `i` and strikes there. */
  lemma {:induction false} DriveReaches(job: Job<Script>, error: SurfaceError, run: Run<Script>, version: nat,
                                        index: nat, i: nat, n: nat)
    requires OnStage(job, error) && index <= i < |job.artifact.steps| && run.lease == Lease(version, true)
    requires forall step <- job.artifact.steps :: Playable(job.artifact, step)
    requires Strikes(job.artifact.steps[i], error, n)
    requires run.world == AllPassing(job.artifact.steps[index..i], Striking(job.artifact.steps[i], n))
    requires job.artifact.steps[i].id !in StepIds(RecoverySteps(job.artifact.recoveries))
    ensures
      var id := job.artifact.steps[i].id;
      multiset(RunOf(Drive(job, run, version, index, (0, 1))).effects)[id] >= multiset(run.effects)[id] + n
    decreases i - index
  {
    var steps := job.artifact.steps;
    if index == i {
      DriveStrikes(job, error, run, version, i, n);
    } else {
      assert steps[index..i][0] == steps[index] && steps[index..i][1..] == steps[index + 1..i];
      RoundPasses(job, error, run, version, index, AllPassing(steps[index + 1..i], Striking(steps[i], n)));
      DriveGoesOn(job, run, version, index, (0, 1));
      var round := DriveOnce(job, run, version, index, (0, 1));
      DriveReaches(job, error, round.run, round.version, index + 1, i, n);
    }
  }

  function SecondPass(a: Artifact, i: nat, j: nat, r: Recovery, k: nat): Script
    requires k <= i <= j < |a.steps|
  {
    Interrupted(a.steps[j], r.id, AllPassing(r.steps, AllPassing(a.steps[k..i], Striking(a.steps[i], 1))))
  }

  /** At `j` the loop is led back to `k`, passes the steps before `i` and strikes there. */
  lemma DriveJumps(job: Job<Script>, error: SurfaceError, run: Run<Script>, version: nat, i: nat, j: nat, r: Recovery,
                   k: nat)
    requires OnStage(job, error) && k <= i <= j < |job.artifact.steps| && Leads(job.artifact, j, r, k)
    requires run.lease == Lease(version, true) && run.uses == map[]
    requires forall step <- job.artifact.steps :: Playable(job.artifact, step)
    requires job.artifact.steps[i].body.action.Operate? && run.world == SecondPass(job.artifact, i, j, r, k)
    requires job.artifact.steps[i].id !in StepIds(RecoverySteps(job.artifact.recoveries))
    ensures
      var id := job.artifact.steps[i].id;
      multiset(RunOf(Drive(job, run, version, j, (0, 1))).effects)[id]
        >= multiset(run.effects + Effect(job.artifact.steps[j]))[id] + 1
  {
    var steps := job.artifact.steps;
    RoundJumps(job, error, run, version, j, r, k, AllPassing(steps[k..i], Striking(steps[i], 1)), steps[i].id);
    DriveGoesOn(job, run, version, j, (0, 1));
    var round := DriveOnce(job, run, version, j, (0, 1));
    DriveReaches(job, error, round.run, round.version, k, i, 1);
  }

  lemma EffectCounts(effects: seq<Id>, step: Step, id: Id)
    ensures multiset(effects + Effect(step))[id] >= multiset(effects)[id]
    ensures step.body.action.Operate? && id == step.id ==> multiset(effects + Effect(step))[id] >= 1
  {
  }

  lemma PassingFirst(steps: seq<Step>, from: nat, to: nat, rest: Script)
    requires from < to <= |steps|
    ensures AllPassing(steps[from..to], rest) == Passing(steps[from], AllPassing(steps[from + 1..to], rest))
  {
    assert steps[from..to][0] == steps[from] && steps[from..to][1..] == steps[from + 1..to];
  }

  /** A step on the way to `j` passes, and counts if it is step `i`. */
  lemma RoundCounts(job: Job<Script>, error: SurfaceError, run: Run<Script>, version: nat, index: nat, i: nat,
                    rest: Script)
    requires OnStage(job, error) && index < |job.artifact.steps| && i < |job.artifact.steps|
    requires Playable(job.artifact, job.artifact.steps[index]) && job.artifact.steps[i].body.action.Operate?
    requires run.lease == Lease(version, true) && run.world == Passing(job.artifact.steps[index], rest)
    requires index <= i || multiset(run.effects)[job.artifact.steps[i].id] >= 1
    ensures
      var round := DriveOnce(job, run, version, index, (0, 1));
      && round.Next? && round.index == index + 1 && round.run.world == rest
      && round.run.lease == Lease(round.version, true) && round.run.uses == run.uses
      && (index + 1 <= i || multiset(round.run.effects)[job.artifact.steps[i].id] >= 1)
  {
    RoundPasses(job, error, run, version, index, rest);
    EffectCounts(run.effects, job.artifact.steps[index], job.artifact.steps[i].id);
  }

  /** Step `i` has acted before the jump, or acts at `j` itself, and acts once more behind it. */
  lemma ReturnCounts(job: Job<Script>, error: SurfaceError, run: Run<Script>, version: nat, i: nat, j: nat,
                     r: Recovery, k: nat)
    requires OnStage(job, error) && k <= i <= j < |job.artifact.steps| && Leads(job.artifact, j, r, k)
    requires run.lease == Lease(version, true) && run.uses == map[]
    requires forall step <- job.artifact.steps :: Playable(job.artifact, step)
    requires job.artifact.steps[i].body.action.Operate? && run.world == SecondPass(job.artifact, i, j, r, k)
    requires job.artifact.steps[i].id !in StepIds(RecoverySteps(job.artifact.recoveries))
    requires i == j || multiset(run.effects)[job.artifact.steps[i].id] >= 1
    ensures multiset(RunOf(Drive(job, run, version, j, (0, 1))).effects)[job.artifact.steps[i].id] >= 2
  {
    EffectCounts(run.effects, job.artifact.steps[j], job.artifact.steps[i].id);
    DriveJumps(job, error, run, version, i, j, r, k);
  }

  /** The loop passes the steps before `j` and is led back there: it acts at `i` on the way, and on the second pass. */
  lemma {:induction false} DriveReturns(job: Job<Script>, error: SurfaceError, run: Run<Script>, version: nat,
                                        index: nat, i: nat, j: nat, r: Recovery, k: nat)
    requires OnStage(job, error) && index <= j && k <= i <= j < |job.artifact.steps| && Leads(job.artifact, j, r, k)
    requires run.lease == Lease(version, true) && run.uses == map[]
    requires forall step <- job.artifact.steps :: Playable(job.artifact, step)
    requires job.artifact.steps[i].body.action.Operate?
    requires job.artifact.steps[i].id !in StepIds(RecoverySteps(job.artifact.recoveries))
    requires run.world == AllPassing(job.artifact.steps[index..j], SecondPass(job.artifact, i, j, r, k))
    requires index <= i || multiset(run.effects)[job.artifact.steps[i].id] >= 1
    ensures multiset(RunOf(Drive(job, run, version, index, (0, 1))).effects)[job.artifact.steps[i].id] >= 2
    decreases j - index
  {
    var steps, id := job.artifact.steps, job.artifact.steps[i].id;
    if index == j {
      assert run.world == SecondPass(job.artifact, i, j, r, k);
      ReturnCounts(job, error, run, version, i, j, r, k);
    } else {
      PassingFirst(steps, index, j, SecondPass(job.artifact, i, j, r, k));
      RoundCounts(job, error, run, version, index, i,
                  AllPassing(steps[index + 1..j], SecondPass(job.artifact, i, j, r, k)));
      var round := DriveOnce(job, run, version, index, (0, 1));
      DriveReturns(job, error, round.run, round.version, index + 1, i, j, r, k);
      assert Drive(job, run, version, index, (0, 1)) == Drive(job, round.run, round.version, index + 1, (0, 1)) by {
        DriveGoesOn(job, run, version, index, (0, 1));
      }
    }
  }

  lemma ExecuteDrives<W>(job: Job<W>, world: W)
    requires job.inputsValid && job.tenant in job.artifact.variants
    requires AllEvaluate(job, job.artifact.preconditions, Begin(world)).reply == Value(true)
    ensures Life(job, world, [])
            == Drive(job, AllEvaluate(job, job.artifact.preconditions, Begin(world)).run, 1, 0, (0, 1))
  {
  }
}
