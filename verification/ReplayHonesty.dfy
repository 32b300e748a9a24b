/**
The port assumption behind "at most once": an error marked recoverable and effect-absent is raised
only by an attempt that had no effect. On surfaces that meet it retries repeat no effect.
*/
module ReplayHonesty {
  import opened Prelude
  import opened Capability
  import opened Replay
  import opened ReplayProofs

  /** Some step of the artifact retries the error. */
  ghost predicate Retried(a: Artifact, code: string) {
    || (exists step <- a.steps :: code in step.body.retry.retryOn)
    || (exists r <- a.recoveries :: exists step <- r.steps :: code in step.body.retry.retryOn)
  }

  /** The claim that permits a retry. */
  ghost predicate Claims(a: Artifact, e: SurfaceError) {
    e.recoverable && e.effectAbsent && Retried(a, e.code)
  }

  ghost predicate Modest<T>(a: Artifact, reply: Reply<T>) {
    reply.Raised? ==> !Claims(a, reply.error)
  }

  /**
  `hot` holds in every world an action with an effect leaves behind, and until the page is observed for the
  next attempt. No error raised by such an action, or in a hot world by a question, is one the artifact
  retries and claims that the effect is absent. Elsewhere questions may make that claim.
  */
  ghost predicate Honest<W(!new)>(job: Job<W>, hot: W -> bool) {
    var s, a := job.surface, job.artifact;
    && (forall w, action, t | s.execute(w, action, t).effect ::
          hot(s.execute(w, action, t).world) && Modest(a, Reported(s.execute(w, action, t).answer)))
    && (forall w, c, o | hot(w) :: hot(s.evaluate(w, c, o).1) && Modest(a, Reported(s.evaluate(w, c, o).0)))
    && (forall w, c, o | hot(w) :: hot(s.waitUntil(w, c, o).1) && Modest(a, Reported(s.waitUntil(w, c, o).0)))
    && (forall w :: Modest(a, Reported(s.captureFrame(w).0)))
  }

  lemma {:induction false} MatchingModest<W(!new)>(job: Job<W>, hot: W -> bool, kind: Branching, refs: seq<Id>,
                                                   indexed: map<Id, Condition>, run: Run<W>)
    requires Honest(job, hot) && hot(run.world)
    ensures Modest(job.artifact, Matching(job, kind, refs, indexed, run).reply)
    ensures hot(Matching(job, kind, refs, indexed, run).run.world)
  {
    if refs != [] && refs[0] in indexed {
      var hit := Ask(job, kind, refs[0], indexed[refs[0]], run);
      if hit.reply.Value? {
        MatchingModest(job, hot, kind, refs[1..], indexed, hit.run);
      }
    }
  }

  lemma DetectModest<W(!new)>(job: Job<W>, hot: W -> bool, kind: Branching, refs: seq<Id>,
                              indexed: map<Id, Condition>, run: Run<W>)
    requires Honest(job, hot) && hot(run.world)
    ensures Modest(job.artifact, Detect(job, kind, refs, indexed, run).reply)
    ensures hot(Detect(job, kind, refs, indexed, run).run.world)
  {
    MatchingModest(job, hot, kind, refs, indexed, run);
  }

  lemma SelectModest<W(!new)>(job: Job<W>, hot: W -> bool, step: Step, run: Run<W>)
    requires Honest(job, hot) && hot(run.world)
    ensures Modest(job.artifact, SelectRecovery(job, step, run).reply) && hot(SelectRecovery(job, step, run).run.world)
  {
    DetectModest(job, hot, Recoveries, step.recoveryRefs, Triggers(job.artifact.recoveries), run);
  }

  lemma FailureModest<W(!new)>(job: Job<W>, hot: W -> bool, step: Step, error: SurfaceError, run: Run<W>, version: nat,
                               dispatched: bool, attempt: nat, allowIntervention: bool)
    requires Honest(job, hot)
    ensures Modest(job.artifact,
                   SurfaceFailure(job, step, error, run, version, dispatched, attempt, allowIntervention).reply)
  {
  }

  lemma UnconfirmedModest<W(!new)>(job: Job<W>, hot: W -> bool, step: Step, run: Run<W>, version: nat, attempt: nat,
                                   recover: bool, intervene: bool)
    requires Honest(job, hot) && hot(run.world)
    ensures Modest(job.artifact, Unconfirmed(job, step, run, version, attempt, recover, intervene).reply)
  {
    SelectModest(job, hot, step, run);
    var asked := if recover then SelectRecovery(job, step, run).run else run;
    DetectModest(job, hot, Failures, step.failureRefs, Detectors(job.artifact.failures), asked);
    var failure := Detect(job, Failures, step.failureRefs, Detectors(job.artifact.failures), asked);
    FailureModest(job, hot, step, Plain("postcondition_mismatch"), failure.run, version,
                  step.body.action.Operate?, attempt, intervene);
  }

  lemma {:induction false} ConfirmModest<W(!new)>(job: Job<W>, hot: W -> bool, step: Step, conditions: seq<Condition>,
                                                  run: Run<W>,
                                                  version: nat, attempt: nat, recover: bool, intervene: bool)
    requires Honest(job, hot) && hot(run.world)
    ensures Modest(job.artifact, Confirm(job, step, conditions, run, version, attempt, recover, intervene).reply)
    decreases |conditions|
  {
    if conditions != [] {
      if ContainsIdentity(conditions[0]) {
        ConfirmModest(job, hot, step, conditions[1..], run, version, attempt, recover, intervene);
      } else {
        var waited := WaitUntil(job, conditions[0], run);
        DetectModest(job, hot, Outcomes, step.outcomeRefs, Detectors(job.artifact.outcomes), waited.run);
        var outcome := Detect(job, Outcomes, step.outcomeRefs, Detectors(job.artifact.outcomes), waited.run);
        ConfirmModest(job, hot, step, conditions[1..], outcome.run, version, attempt, recover, intervene);
        UnconfirmedModest(job, hot, step, outcome.run, version, attempt, recover, intervene);
      }
    }
  }

  lemma EarlyModest<W(!new)>(job: Job<W>, hot: W -> bool, step: Step, run: Run<W>, recover: bool)
    requires Honest(job, hot) && hot(run.world)
    ensures Modest(job.artifact, EarlyBranch(job, step, run, recover).reply)
            && hot(EarlyBranch(job, step, run, recover).run.world)
  {
    DetectModest(job, hot, Outcomes, step.outcomeRefs, Detectors(job.artifact.outcomes), run);
    var outcome := Detect(job, Outcomes, step.outcomeRefs, Detectors(job.artifact.outcomes), run);
    DetectModest(job, hot, Failures, step.failureRefs, Detectors(job.artifact.failures), outcome.run);
    var failure := Detect(job, Failures, step.failureRefs, Detectors(job.artifact.failures), outcome.run);
    SelectModest(job, hot, step, failure.run);
  }

  lemma {:induction false} IdentityHot<W(!new)>(job: Job<W>, hot: W -> bool, conditions: seq<Condition>, run: Run<W>)
    requires Honest(job, hot) && hot(run.world)
    ensures hot(IdentityVerified(job, conditions, run).run.world)
  {
    if conditions != [] {
      IdentityHot(job, hot, conditions[1..], run);
      IdentityHot(job, hot, conditions[1..], WaitUntil(job, conditions[0], run).run);
    }
  }

  lemma VerifyModest<W(!new)>(job: Job<W>, hot: W -> bool, step: Step, run: Run<W>, version: nat, attempt: nat,
                              recover: bool, intervene: bool)
    requires Honest(job, hot) && hot(run.world)
    ensures Modest(job.artifact, Verify(job, step, run, version, attempt, recover, intervene).reply)
  {
    IdentityHot(job, hot, step.body.postconditions, run);
    var identity := IdentityVerified(job, step.body.postconditions, run);
    EarlyModest(job, hot, step, identity.run, recover);
    var early := EarlyBranch(job, step, identity.run, recover);
    ConfirmModest(job, hot, step, step.body.postconditions, early.run, version, attempt, recover, intervene);
  }

  lemma PerformHonest<W(!new)>(job: Job<W>, hot: W -> bool, step: Step, target: Option<string>, run: Run<W>)
    requires Honest(job, hot)
    ensures
      var out := Perform(job, step, target, run);
      out.run.effects != run.effects ==> hot(out.run.world) && Modest(job.artifact, out.reply)
  {
  }

  lemma TryHonest<W(!new)>(job: Job<W>, hot: W -> bool, step: Step, run: Run<W>, version: nat, attempt: nat,
                           recover: bool, intervene: bool)
    requires Honest(job, hot)
    ensures
      var out := Try(job, step, run, version, attempt, recover, intervene).out;
      out.reply.Raised? && Claims(job.artifact, out.reply.error) ==> out.run.effects == run.effects
  {
    var prepared := Prepare(job, step, run, version, intervene);
    if prepared.reply.Value? && prepared.reply.value.Go? {
      PerformHonest(job, hot, step, prepared.reply.value.target, prepared.run);
      var performed := Perform(job, step, prepared.reply.value.target, prepared.run);
      if performed.run.effects != prepared.run.effects {
        VerifyModest(job, hot, step, performed.run, version, attempt, recover, intervene);
      }
    }
  }

  ghost predicate Listed(a: Artifact, step: Step) {
    forall code <- step.body.retry.retryOn :: Retried(a, code)
  }

  lemma {:induction false} StepHonest<W(!new)>(job: Job<W>, hot: W -> bool, step: Step, run: Run<W>, version: nat,
                                               attempt: nat,
                                               recover: bool, intervene: bool)
    requires Honest(job, hot) && Listed(job.artifact, step)
    ensures ExecuteStep(job, step, run, version, attempt, recover, intervene).run.lied == run.lied
    decreases step.body.retry.maxAttempts - attempt
  {
    TryHonest(job, hot, step, run, version, attempt, recover, intervene);
    var tried := Try(job, step, run, version, attempt, recover, intervene);
    if tried.out.reply.Raised? && Retryable(step, tried.out.reply.error, attempt) {
      StepHonest(job, hot, step, Repeating(step, run, tried.out.run), version, attempt + 1, recover, intervene);
    }
  }

  lemma {:induction false} RecoverHonest<W(!new)>(job: Job<W>, hot: W -> bool, steps: seq<Step>, run: Run<W>,
                                                  version: nat)
    requires Honest(job, hot) && (forall step <- steps :: Listed(job.artifact, step))
    ensures RecoverFrom(job, steps, run, version).run.lied == run.lied
    decreases |steps|
  {
    if steps != [] {
      StepHonest(job, hot, steps[0], run, version, 1, false, false);
      var stepped := ExecuteStep(job, steps[0], run, version, 1, false, false);
      var beat := Heartbeat(job, stepped.run, version);
      if stepped.reply == Value(Done) && beat.reply.Value? {
        RecoverHonest(job, hot, steps[1..], beat.run, beat.reply.value);
      }
    }
  }

  lemma RecoveryHonest<W(!new)>(job: Job<W>, hot: W -> bool, recovery: Recovery, run: Run<W>, version: nat)
    requires Honest(job, hot) && recovery in job.artifact.recoveries
    ensures ExecuteRecovery(job, recovery, run, version).run.lied == run.lied
  {
    var beat := Heartbeat(job, Started(run, recovery), version);
    if beat.reply.Value? {
      RecoverHonest(job, hot, recovery.steps, beat.run, beat.reply.value);
    }
  }

  lemma FinishHonest<W(!new)>(job: Job<W>, hot: W -> bool, stepped: Out<W, StepEnd>, version: nat)
    requires Honest(job, hot)
    ensures FinishMain(job, stepped, version).run.lied == stepped.run.lied
  {
    if stepped.reply.Value? && stepped.reply.value.Recover? {
      var found := FindRecovery(job.artifact.recoveries, stepped.reply.value.id);
      if found.Some? {
        RecoveryHonest(job, hot, found.value, stepped.run, version);
      }
    }
  }

  lemma MainHonest<W(!new)>(job: Job<W>, hot: W -> bool, step: Step, run: Run<W>, version: nat, attempt: nat)
    requires Honest(job, hot) && Listed(job.artifact, step)
    ensures ExecuteMain(job, step, run, version, attempt).run.lied == run.lied
  {
    var entered := run.(entries := run.entries + 1);
    MainIsFinish(job, step, run, version, attempt);
    StepHonest(job, hot, step, entered, version, attempt, true, true);
    FinishHonest(job, hot, ExecuteStep(job, step, entered, version, attempt, true, true), version);
  }

  lemma {:induction false} DriveHonest<W(!new)>(job: Job<W>, hot: W -> bool, run: Run<W>, version: nat, index: nat,
                                                first: (nat, nat))
    requires Honest(job, hot) && index <= |job.artifact.steps|
    ensures RunOf(Drive(job, run, version, index, first)).lied == run.lied
    decreases Budget(job.artifact.recoveries, run.uses), |job.artifact.steps| - index
  {
    if index < |job.artifact.steps| {
      var step, attempt := job.artifact.steps[index], AttemptAt(index, first);
      MainHonest(job, hot, step, run, version, attempt);
      SettleRemembers(job, ExecuteMain(job, step, run, version, attempt), version, index);
      match DriveOnce(job, run, version, index, first) {
        case Over(_) =>
        case Next(run', version', index') => DriveHonest(job, hot, run', version', index', first);
      }
    }
  }

  lemma ResumeHonest<W(!new)>(job: Job<W>, hot: W -> bool, k: Continuation<W>, checked: Out<W, Option<Id>>,
                              version: nat)
    requires Honest(job, hot) && k.index < |job.artifact.steps|
    ensures RunOf(Resume(job, k, checked, version)).lied == checked.run.lied
  {
    if checked.reply.Value? {
      DriveHonest(job, hot, checked.run.(lease := Lease(version, true)), version, StartAt(k),
                  (k.index, k.retryAttempt));
    }
  }

  lemma FirstSegmentHonest<W(!new)>(job: Job<W>, hot: W -> bool, world: W)
    requires Honest(job, hot)
    ensures RunOf(Execute(job, world)).lied == {}
  {
    var ready := AllEvaluate(job, job.artifact.preconditions, Begin(world));
    if ready.reply == Value(true) {
      DriveHonest(job, hot, ready.run, 1, 0, (0, 1));
    }
  }

  lemma {:induction false} LifeHonest<W(!new)>(job: Job<W>, hot: W -> bool, world: W, backs: seq<Handback<W>>)
    requires Honest(job, hot)
    ensures RunOf(Life(job, world, backs)).lied == {}
  {
    if backs == [] {
      FirstSegmentHonest(job, hot, world);
    } else {
      LifeHonest(job, hot, world, backs[..|backs| - 1]);
      var before := Life(job, world, backs[..|backs| - 1]);
      if before.PausedAt? && before.kept.index < |job.artifact.steps| {
        var k, back := before.kept, backs[|backs| - 1];
        ResumeHonest(job, hot, k, ValidateResume(job, k, Returned(k, back)), back.version);
      }
    }
  }

  /** On an honest surface a step that no recovery leads back to takes effect at most once, whatever is handed over. */
  lemma HonestSurfacesActAtMostOnce<W(!new)>(job: Job<W>, hot: W -> bool, i: nat, world: W, backs: seq<Handback<W>>)
    requires Validated(job.artifact) && Honest(job, hot)
    requires i < |job.artifact.steps| && Unrevisited(job.artifact, i)
    ensures multiset(RunOf(Life(job, world, backs)).effects)[job.artifact.steps[i].id] <= 1
  {
    LifeHonest(job, hot, world, backs);
    EffectsHappenAtMostOnce(job, i, world, backs);
  }
}
