/**
What a run has got through when it succeeds: every step was confirmed, every operating step's action went through,
and no recovery was started that did not show.
*/
module ReplayComplete {
  import opened Prelude
  import opened Capability
  import opened Replay
  import opened ReplayProofs
  import opened ReplayGate
  import opened ReplayCauses
  import opened ReplayVerified

  // ---------------------------------------------------------------- recoveries show before they start

  /** The trigger of a recovery that some main step refers to was answered yes. */
  ghost predicate Triggered<W(!new)>(job: Job<W>, id: Id) {
    && (exists step <- job.artifact.steps :: id in step.recoveryRefs)
    && exists r <- job.artifact.recoveries :: r.id == id && Shows(job.surface, r.trigger)
  }

  ghost predicate AllTriggered<W(!new)>(job: Job<W>, run: Run<W>) {
    forall id <- run.starts :: Triggered(job, id)
  }

  lemma ChosenIsTriggered<W(!new)>(job: Job<W>, step: Step, out: Out<W, StepEnd>)
    requires step in job.artifact.steps && StepExplained(job, step, out, true)
    requires out.reply.Value? && out.reply.value.Recover?
    ensures Triggered(job, out.reply.value.id)
  {
    var id, s, texts := out.reply.value.id, job.surface, TextsOf(out.run.outputs);
    var from :| Explained(job, step, out.reply, out.run.uses, texts, from, out.run.world, true);
    assert TriggerAnswered(s, job.artifact.recoveries, id, true, texts, from, out.run.world);
    var r :| r in job.artifact.recoveries && r.id == id && Answered(s, r.trigger, texts, true, from, out.run.world);
    var w :| AnsweredAt(s, r.trigger, texts, true, from, w, out.run.world);
    assert Shows(s, r.trigger);
  }

  lemma MainTriggered<W(!new)>(job: Job<W>, step: Step, run: Run<W>, version: nat, attempt: nat)
    requires step in job.artifact.steps && AllTriggered(job, run)
    ensures AllTriggered(job, ExecuteMain(job, step, run, version, attempt).run)
  {
    var entered := run.(entries := run.entries + 1);
    MainIsFinish(job, step, run, version, attempt);
    StepEndsForACause(job, step, entered, version, attempt, true, true);
    FinishTriggered(job, step, ExecuteStep(job, step, entered, version, attempt, true, true), version);
  }

  lemma FinishTriggered<W(!new)>(job: Job<W>, step: Step, stepped: Out<W, StepEnd>, version: nat)
    requires step in job.artifact.steps && StepExplained(job, step, stepped, true) && AllTriggered(job, stepped.run)
    ensures AllTriggered(job, FinishMain(job, stepped, version).run)
  {
    FinishStarts(job, stepped, version);
    if stepped.reply.Value? && stepped.reply.value.Recover? {
      ChosenIsTriggered(job, step, stepped);
    }
  }

  /** Ending a main step starts no other recovery than the one that was chosen. */
  lemma FinishStarts<W>(job: Job<W>, stepped: Out<W, StepEnd>, version: nat)
    ensures
      var starts := FinishMain(job, stepped, version).run.starts;
      || starts == stepped.run.starts
      || (stepped.reply.Value? && stepped.reply.value.Recover?
          && starts == stepped.run.starts + [stepped.reply.value.id])
  {
  }

  lemma {:induction false} DriveTriggered<W(!new)>(job: Job<W>, run: Run<W>, version: nat, index: nat,
                                                   first: (nat, nat))
    requires index <= |job.artifact.steps| && AllTriggered(job, run)
    ensures AllTriggered(job, RunOf(Drive(job, run, version, index, first)))
    decreases Budget(job.artifact.recoveries, run.uses), |job.artifact.steps| - index
  {
    if index < |job.artifact.steps| {
      var step, attempt := job.artifact.steps[index], AttemptAt(index, first);
      MainTriggered(job, step, run, version, attempt);
      SettleUses(job, ExecuteMain(job, step, run, version, attempt), version, index);
      match DriveOnce(job, run, version, index, first) {
        case Over(_) =>
        case Next(run', version', index') => DriveTriggered(job, run', version', index', first);
      }
    }
  }

  lemma FirstSegmentTriggered<W(!new)>(job: Job<W>, world: W)
    ensures AllTriggered(job, RunOf(Execute(job, world)))
  {
    var ready := AllEvaluate(job, job.artifact.preconditions, Begin(world));
    if ready.reply == Value(true) {
      DriveTriggered(job, ready.run, 1, 0, (0, 1));
    }
  }

  lemma ResumptionTriggered<W(!new)>(job: Job<W>, k: Continuation<W>, checked: Out<W, Option<Id>>, version: nat)
    requires k.index < |job.artifact.steps| && AllTriggered(job, checked.run)
    ensures AllTriggered(job, RunOf(Resume(job, k, checked, version)))
  {
    if checked.reply.Value? {
      DriveTriggered(job, checked.run.(lease := Lease(version, true)), version, StartAt(k), (k.index, k.retryAttempt));
    }
  }

  /** In every whole run a recovery starts only for a main step that refers to it, after its trigger was seen. */
  lemma {:induction false} RecoveriesAreTriggered<W(!new)>(job: Job<W>, world: W, backs: seq<Handback<W>>)
    ensures AllTriggered(job, RunOf(Life(job, world, backs)))
  {
    if backs == [] {
      FirstSegmentTriggered(job, world);
    } else {
      RecoveriesAreTriggered(job, world, backs[..|backs| - 1]);
      var before := Life(job, world, backs[..|backs| - 1]);
      if before.PausedAt? && before.kept.index < |job.artifact.steps| {
        var k, back := before.kept, backs[|backs| - 1];
        ResumptionTriggered(job, k, ValidateResume(job, k, Returned(k, back)), back.version);
      }
    }
  }

  // ---------------------------------------------------------------- a success has been through every step

  ghost predicate CameTrue<W(!new)>(s: Surface<W>, c: Condition) {
    exists w, texts :: s.waitUntil(w, c, texts).0 == Says(true)
  }

  ghost predicate StepCovered<W(!new)>(job: Job<W>, step: Step) {
    forall c <- step.body.postconditions :: CameTrue(job.surface, c)
  }

  /** Every postcondition of the first `n` main steps came true. */
  ghost predicate Covered<W(!new)>(job: Job<W>, n: nat) {
    forall i | 0 <= i < n && i < |job.artifact.steps| :: StepCovered(job, job.artifact.steps[i])
  }

  lemma DoneCovers<W(!new)>(job: Job<W>, step: Step, run: Run<W>, acted: W)
    requires DoneSince(job, step, run, acted, true)
    ensures StepCovered(job, step)
  {
    forall c <- step.body.postconditions
      ensures CameTrue(job.surface, c)
    {
      assert ContainsIdentity(c) || Plainly(c);
      var w :| AwaitedAt(job.surface, c, TextsOf(run.outputs), acted, w, run.world);
    }
  }

  ghost predicate CoveredEnd<W(!new)>(job: Job<W>, end: RunEnd<W>) {
    RunOf(end).starts == [] ==>
      && (end.Ended? && end.result.Success? ==> Covered(job, |job.artifact.steps|))
      && (end.PausedAt? ==> Covered(job, end.kept.index))
  }

  lemma SettleCovers<W(!new)>(job: Job<W>, run: Run<W>, main: Out<W, MainEnd>, version: nat, index: nat, attempt: nat)
    requires index < |job.artifact.steps|
    requires MainEnding(job, job.artifact.steps[index], run, main, version, attempt)
    requires MainExplained(job, job.artifact.steps[index], main)
    requires run.starts == [] ==> Covered(job, index)
    ensures
      match Settle(job, main, version, index)
      case Over(end) => CoveredEnd(job, end)
      case Next(run', _, index') => run'.starts == [] ==> Covered(job, index')
  {
    if main.reply == Value(Advance) {
      AdvanceCovers(job, job.artifact.steps[index], main);
    }
  }

  lemma AdvanceCovers<W(!new)>(job: Job<W>, step: Step, main: Out<W, MainEnd>)
    requires MainExplained(job, step, main) && main.reply == Value(Advance)
    ensures StepCovered(job, step)
  {
    var acted :| DoneSince(job, step, main.run, acted, true);
    DoneCovers(job, step, main.run, acted);
  }

  lemma RoundCovers<W(!new)>(job: Job<W>, run: Run<W>, version: nat, index: nat, first: (nat, nat))
    requires index < |job.artifact.steps| && (run.starts == [] ==> Covered(job, index))
    ensures
      match DriveOnce(job, run, version, index, first)
      case Over(end) => CoveredEnd(job, end)
      case Next(run', _, index') => run'.starts == [] ==> Covered(job, index')
  {
    var step, attempt := job.artifact.steps[index], AttemptAt(index, first);
    MainStepExplained(job, step, run, version, attempt);
    SettleCovers(job, run, ExecuteMain(job, step, run, version, attempt), version, index, attempt);
  }

  lemma {:induction false} DriveCovers<W(!new)>(job: Job<W>, run: Run<W>, version: nat, index: nat, first: (nat, nat))
    requires index <= |job.artifact.steps| && (run.starts == [] ==> Covered(job, index))
    ensures CoveredEnd(job, Drive(job, run, version, index, first))
    decreases Budget(job.artifact.recoveries, run.uses), |job.artifact.steps| - index
  {
    if index < |job.artifact.steps| {
      RoundCovers(job, run, version, index, first);
      match DriveOnce(job, run, version, index, first) {
        case Over(_) =>
        case Next(run', version', index') => DriveCovers(job, run', version', index', first);
      }
    }
  }

  lemma CheckCovers<W(!new)>(job: Job<W>, k: Continuation<W>, run: Run<W>, after: Run<W>)
    requires k.index < |job.artifact.steps| && !k.retryStep && CheckPassed(job, k, run, None, after)
    ensures StepCovered(job, job.artifact.steps[k.index])
  {
    var step, texts := job.artifact.steps[k.index], TextsOf(after.outputs);
    var seen: Observation, from: W :| CheckedFrom(job, k, run, None, after, seen, from);
    forall c <- step.body.postconditions
      ensures CameTrue(job.surface, c)
    {
      assert Awaited(job.surface, c, texts, from, after.world);
      var w :| AwaitedAt(job.surface, c, texts, from, w, after.world);
    }
  }

  lemma ResumptionCovers<W(!new)>(job: Job<W>, k: Continuation<W>, run: Run<W>, checked: Out<W, Option<Id>>,
                                  version: nat)
    requires k.index < |job.artifact.steps| && (checked.run.starts == [] ==> Covered(job, k.index))
    requires checked.reply.Value? ==> CheckPassed(job, k, run, checked.reply.value, checked.run)
    ensures CoveredEnd(job, Resume(job, k, checked, version))
  {
    if checked.reply == Value(None) {
      StartIsCovered(job, k, run, checked.run);
      DriveCovers(job, checked.run.(lease := Lease(version, true)), version, StartAt(k), (k.index, k.retryAttempt));
    }
  }

  lemma StartIsCovered<W(!new)>(job: Job<W>, k: Continuation<W>, run: Run<W>, after: Run<W>)
    requires k.index < |job.artifact.steps| && (after.starts == [] ==> Covered(job, k.index))
    requires CheckPassed(job, k, run, None, after)
    ensures after.starts == [] ==> Covered(job, StartAt(k))
  {
    if !k.retryStep {
      CheckCovers(job, k, run, after);
    }
  }

  lemma FirstSegmentCovers<W(!new)>(job: Job<W>, world: W)
    ensures CoveredEnd(job, Execute(job, world))
  {
    var ready := AllEvaluate(job, job.artifact.preconditions, Begin(world));
    if ready.reply == Value(true) {
      DriveCovers(job, ready.run, 1, 0, (0, 1));
    }
  }

  /**
  When a whole run succeeds without any recovery having jumped over steps, every postcondition of every main step
  came true, whether automation took the step or a human stood in for it.
  */
  lemma {:induction false} SuccessLeavesNothingOut<W(!new)>(job: Job<W>, world: W, backs: seq<Handback<W>>)
    ensures CoveredEnd(job, Life(job, world, backs))
  {
    if backs == [] {
      FirstSegmentCovers(job, world);
    } else {
      SuccessLeavesNothingOut(job, world, backs[..|backs| - 1]);
      var before := Life(job, world, backs[..|backs| - 1]);
      if before.PausedAt? && before.kept.index < |job.artifact.steps| {
        var k, back := before.kept, backs[|backs| - 1];
        AcceptedIsChecked(job, k, Returned(k, back));
        ResumptionCovers(job, k, Returned(k, back), ValidateResume(job, k, Returned(k, back)), back.version);
      }
    }
  }

  // ---------------------------------------------------------------- every action went through

  ghost predicate DeliveredAs<W>(s: Surface<W>, step: Step, d: Deed<W>) {
    d.id == step.id && d.body == step.body && s.execute(d.world, d.body.action, d.target).answer == Says(Completed)
  }

  /** The action of the step was handed over, and the surface reported it as completed. */
  ghost predicate Delivered<W>(s: Surface<W>, step: Step, dispatched: seq<Deed<W>>) {
    step.body.action.Operate? ==> exists d <- dispatched :: DeliveredAs(s, step, d)
  }

  ghost predicate AllDelivered<W>(job: Job<W>, n: nat, dispatched: seq<Deed<W>>) {
    forall i | 0 <= i < n && i < |job.artifact.steps| :: Delivered(job.surface, job.artifact.steps[i], dispatched)
  }

  lemma TryAddsDeeds<W>(job: Job<W>, step: Step, run: Run<W>, version: nat, attempt: nat, recover: bool, allow: bool)
    ensures run.dispatched <= Try(job, step, run, version, attempt, recover, allow).out.run.dispatched
  {
    var prepared := Prepare(job, step, run, version, allow);
    if prepared.reply.Value? && prepared.reply.value.Go? {
      if step.body.action.Operate? {
        ClearedActs(job, step, run, version, attempt, recover, allow, prepared.reply.value.target);
      } else {
        var performed := Perform(job, step, prepared.reply.value.target, prepared.run);
        assert performed.run.dispatched == run.dispatched;
      }
    }
  }

  lemma {:induction false} StepAddsDeeds<W>(job: Job<W>, step: Step, run: Run<W>, version: nat, attempt: nat,
                                            recover: bool, allow: bool)
    ensures run.dispatched <= ExecuteStep(job, step, run, version, attempt, recover, allow).run.dispatched
    decreases step.body.retry.maxAttempts - attempt
  {
    TryAddsDeeds(job, step, run, version, attempt, recover, allow);
    StepAfterTry(job, step, run, version, attempt, recover, allow);
    var tried := Try(job, step, run, version, attempt, recover, allow);
    if tried.out.reply.Raised? && Retryable(step, tried.out.reply.error, attempt) {
      StepAddsDeeds(job, step, Repeating(step, run, tried.out.run), version, attempt + 1, recover, allow);
    }
  }

  lemma AdvancedAsDone<W>(job: Job<W>, stepped: Out<W, StepEnd>, version: nat)
    requires FinishMain(job, stepped, version).reply == Value(Advance)
    ensures FinishMain(job, stepped, version).run == stepped.run && stepped.reply == Value(Done)
  {
  }

  lemma DoneDelivers<W(!new)>(job: Job<W>, step: Step, run: Run<W>, acted: W)
    requires DoneSince(job, step, run, acted, true) && step.body.action.Operate?
    ensures |run.dispatched| > 0 && DeliveredAs(job.surface, step, run.dispatched[|run.dispatched| - 1])
  {
    assert ActedAs(job, step, run, acted);
  }

  lemma AdvanceAddsDeeds<W>(job: Job<W>, step: Step, run: Run<W>, version: nat, attempt: nat)
    ensures
      var main := ExecuteMain(job, step, run, version, attempt);
      main.reply == Value(Advance) ==> run.dispatched <= main.run.dispatched
  {
    var entered := run.(entries := run.entries + 1);
    MainIsFinish(job, step, run, version, attempt);
    StepAddsDeeds(job, step, entered, version, attempt, true, true);
    var stepped := ExecuteStep(job, step, entered, version, attempt, true, true);
    if FinishMain(job, stepped, version).reply == Value(Advance) {
      AdvancedAsDone(job, stepped, version);
    }
  }

  lemma AdvancedDelivers<W(!new)>(job: Job<W>, step: Step, main: Out<W, MainEnd>)
    requires MainExplained(job, step, main) && main.reply == Value(Advance) && step.body.action.Operate?
    ensures
      var dispatched := main.run.dispatched;
      |dispatched| > 0 && DeliveredAs(job.surface, step, dispatched[|dispatched| - 1])
  {
    var acted :| DoneSince(job, step, main.run, acted, true);
    DoneDelivers(job, step, main.run, acted);
  }

  lemma MoreDelivered<W>(job: Job<W>, index: nat, step: Step, before: seq<Deed<W>>, after: seq<Deed<W>>)
    requires index < |job.artifact.steps| && step == job.artifact.steps[index] && before <= after
    requires AllDelivered(job, index, before)
    requires step.body.action.Operate? ==> |after| > 0 && DeliveredAs(job.surface, step, after[|after| - 1])
    ensures AllDelivered(job, index + 1, after)
  {
    forall i | 0 <= i < index
      ensures Delivered(job.surface, job.artifact.steps[i], after)
    {
      if job.artifact.steps[i].body.action.Operate? {
        var d :| d in before && DeliveredAs(job.surface, job.artifact.steps[i], d);
        assert d in after;
      }
    }
  }

  lemma MainDelivers<W(!new)>(job: Job<W>, index: nat, before: seq<Deed<W>>, main: Out<W, MainEnd>)
    requires index < |job.artifact.steps| && AllDelivered(job, index, before) && before <= main.run.dispatched
    requires MainExplained(job, job.artifact.steps[index], main) && main.reply == Value(Advance)
    ensures AllDelivered(job, index + 1, main.run.dispatched)
  {
    var step := job.artifact.steps[index];
    if step.body.action.Operate? {
      AdvancedDelivers(job, step, main);
    }
    MoreDelivered(job, index, step, before, main.run.dispatched);
  }

  lemma RoundDelivers<W(!new)>(job: Job<W>, run: Run<W>, version: nat, index: nat, first: (nat, nat))
    requires index < |job.artifact.steps| && (run.starts == [] ==> AllDelivered(job, index, run.dispatched))
    ensures
      match DriveOnce(job, run, version, index, first)
      case Over(end) => !(end.Ended? && end.result.Success?)
      case Next(run', _, index') => run'.starts == [] ==> AllDelivered(job, index', run'.dispatched)
  {
    var step, attempt := job.artifact.steps[index], AttemptAt(index, first);
    var main := ExecuteMain(job, step, run, version, attempt);
    MainStepExplained(job, step, run, version, attempt);
    if main.reply == Value(Advance) && run.starts == [] {
      AdvanceAddsDeeds(job, step, run, version, attempt);
      MainDelivers(job, index, run.dispatched, main);
    }
    SettleDelivers(job, step, run, main, version, index, attempt);
  }

  lemma SettleDelivers<W(!new)>(job: Job<W>, step: Step, run: Run<W>, main: Out<W, MainEnd>, version: nat, index: nat,
                                attempt: nat)
    requires index < |job.artifact.steps| && MainEnding(job, step, run, main, version, attempt)
    requires main.reply == Value(Advance) && run.starts == [] ==> AllDelivered(job, index + 1, main.run.dispatched)
    ensures
      match Settle(job, main, version, index)
      case Over(end) => !(end.Ended? && end.result.Success?)
      case Next(run', _, index') => run'.starts == [] ==> AllDelivered(job, index', run'.dispatched)
  {
    SettleDoesNothing(job, main, version, index);
    SettleUses(job, main, version, index);
  }

  lemma {:induction false} DriveDelivers<W(!new)>(job: Job<W>, run: Run<W>, version: nat, index: nat, first: (nat, nat))
    requires index <= |job.artifact.steps| && (run.starts == [] ==> AllDelivered(job, index, run.dispatched))
    ensures
      var end := Drive(job, run, version, index, first);
      end.Ended? && end.result.Success? && end.final.starts == [] ==>
        AllDelivered(job, |job.artifact.steps|, end.final.dispatched)
    decreases Budget(job.artifact.recoveries, run.uses), |job.artifact.steps| - index
  {
    if index < |job.artifact.steps| {
      RoundDelivers(job, run, version, index, first);
      match DriveOnce(job, run, version, index, first) {
        case Over(_) =>
        case Next(run', version', index') => DriveDelivers(job, run', version', index', first);
      }
    }
  }

  /**
  When a run succeeds without a handoff and without a recovery having jumped over steps, the action of each
  operating step was handed to the surface and reported as completed.
  */
  lemma SuccessHasActed<W(!new)>(job: Job<W>, world: W)
    ensures
      var end := Life(job, world, []);
      end.Ended? && end.result.Success? && end.final.starts == [] ==>
        AllDelivered(job, |job.artifact.steps|, end.final.dispatched)
  {
    var ready := AllEvaluate(job, job.artifact.preconditions, Begin(world));
    if ready.reply == Value(true) {
      DriveDelivers(job, ready.run, 1, 0, (0, 1));
    }
  }

  // ---------------------------------------------------------------- attempts are counted on

  /** A pause at the interrupted step keeps its attempt number, unless approval is sought, which starts anew. */
  ghost predicate CountsOn<W>(end: RunEnd<W>, first: (nat, nat)) {
    end.PausedAt? && end.kept.index == first.0 ==> end.kept.retryAttempt == 1 || first.1 <= end.kept.retryAttempt
  }

  lemma SettleCountsOn<W>(job: Job<W>, step: Step, run: Run<W>, main: Out<W, MainEnd>, version: nat, index: nat,
                          first: (nat, nat))
    requires index < |job.artifact.steps| && MainEnding(job, step, run, main, version, AttemptAt(index, first))
    ensures
      var round := Settle(job, main, version, index);
      round.Over? ==> CountsOn(round.end, first)
  {
  }

  lemma {:induction false} DriveCountsOn<W>(job: Job<W>, run: Run<W>, version: nat, index: nat, first: (nat, nat))
    requires index <= |job.artifact.steps|
    ensures CountsOn(Drive(job, run, version, index, first), first)
    decreases Budget(job.artifact.recoveries, run.uses), |job.artifact.steps| - index
  {
    if index < |job.artifact.steps| {
      var step, attempt := job.artifact.steps[index], AttemptAt(index, first);
      SettleCountsOn(job, step, run, ExecuteMain(job, step, run, version, attempt), version, index, first);
      match DriveOnce(job, run, version, index, first) {
        case Over(_) =>
        case Next(run', version', index') => DriveCountsOn(job, run', version', index', first);
      }
    }
  }

  /** A handoff gives no step its attempts back: when a resumed run pauses at the same step again, it counts on. */
  lemma AttemptsCountOn<W>(job: Job<W>, k: Continuation<W>, back: Handback<W>)
    requires k.index < |job.artifact.steps|
    ensures CountsOn(Continue(job, k, back), (k.index, k.retryAttempt))
  {
    var checked := ValidateResume(job, k, Returned(k, back));
    if checked.reply == Value(None) {
      DriveCountsOn(job, checked.run.(lease := Lease(back.version, true)), back.version, StartAt(k),
                    (k.index, k.retryAttempt));
    }
  }
}
