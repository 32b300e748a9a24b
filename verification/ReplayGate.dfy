/**
The gate between a run and its surface: what was done to the page, in every run, was allowed before. Everything is
said on the surface's own answers and the deeds that the run's history records.
*/
module ReplayGate {
  import opened Prelude
  import opened Capability
  import opened Replay
  import opened ReplayProofs

  // ---------------------------------------------------------------- what the surface was asked

  /** The conditions were asked one after the other, the first in the world `from`, and each was answered yes. */
  ghost predicate HeldInTurn<W>(s: Surface<W>, conditions: seq<Condition>, texts: Texts, from: W, to: W)
    decreases |conditions|
  {
    if conditions == [] then to == from else
    var (answer, next) := s.evaluate(from, conditions[0], texts);
    answer == Says(true) && HeldInTurn(s, conditions[1..], texts, next, to)
  }

  /** The target, if there is one, was found as `handle`. */
  ghost predicate Bound<W>(s: Surface<W>, target: Option<Locator>, from: W, handle: Option<string>, to: W) {
    match target
    case None => handle == None && to == from
    case Some(locator) => handle.Some? && s.resolve(from, locator) == (Says(handle.value), to)
  }

  ghost predicate AskedBetween<W>(s: Surface<W>, body: StepBody, texts: Texts, begun: W, ready: W, seen: Observation,
                                  observed: W, handle: Option<string>, world: W, decision: Decision)
  {
    && !s.leaseExpired(begun)
    && HeldInTurn(s, body.preconditions, texts, begun, ready)
    && s.observe(ready) == (Says(seen), observed)
    && Bound(s, body.target, observed, handle, world)
    && s.policy(world, body, seen, handle) == Says(decision)
  }

  /**
  From the world an attempt began in, with the lease not expired, to the one it acts in: each precondition was just
  answered yes, the page was observed, the target was found, and policy decided on that.
  */
  ghost predicate Asked<W(!new)>(s: Surface<W>, body: StepBody, texts: Texts, begun: W, handle: Option<string>,
                                 world: W, decision: Decision)
  {
    exists ready: W, seen: Observation, observed: W ::
      AskedBetween(s, body, texts, begun, ready, seen, observed, handle, world, decision)
  }

  /** Automation held the lease, and policy allowed the deed in the very world it was done in. */
  ghost predicate Cleared<W(!new)>(s: Surface<W>, d: Deed<W>) {
    d.lease.automation && exists begun: W :: Asked(s, d.body, d.texts, begun, d.target, d.world, Allow)
  }

  ghost predicate AllowedOn<W(!new)>(s: Surface<W>, d: Deed<W>, before: W, from: W, seen: Observation) {
    && s.observe(before).0 == Says(seen) && Bound(s, d.body.target, from, d.target, d.world)
    && s.policy(d.world, d.body, seen, d.target) == Says(Allow)
  }

  /** Policy allowed the reading of a control found just before, on a page that was observed. */
  ghost predicate Allowed<W(!new)>(s: Surface<W>, d: Deed<W>) {
    exists before: W, from: W, seen: Observation :: AllowedOn(s, d, before, from, seen)
  }

  // ---------------------------------------------------------------- lawful runs

  /** A step of the main program or of a recovery. */
  ghost predicate Declared(a: Artifact, step: Step) {
    step in a.steps || exists r <- a.recoveries :: step in r.steps
  }

  ghost predicate DoneFor<W>(a: Artifact, step: Step, d: Deed<W>) {
    Declared(a, step) && step.id == d.id && step.body == d.body
  }

  ghost predicate Authored<W>(a: Artifact, d: Deed<W>) {
    exists step: Step :: DoneFor(a, step, d)
  }

  /** The output holds the very text that was read there. */
  ghost predicate ReadAs<W>(s: Surface<W>, d: Deed<W>, name: string, text: string) {
    && d.body.action.Extract? && d.body.action.extracted == name && d.target.Some?
    && s.extract(d.world, d.target.value, d.body.action).0 == Says(text)
  }

  ghost predicate Sourced<W>(s: Surface<W>, extractions: seq<Deed<W>>, name: string, text: string) {
    exists i :: 0 <= i < |extractions| && ReadAs(s, extractions[i], name, text)
  }

  /** Every action and every reading was the artifact's and was allowed, and every output was read by one of them. */
  ghost predicate Lawful<W(!new)>(job: Job<W>, run: Run<W>) {
    && (forall d <- run.dispatched :: d.body.action.Operate? && Authored(job.artifact, d) && Cleared(job.surface, d))
    && (forall d <- run.extractions :: d.body.action.Extract? && Authored(job.artifact, d) && Allowed(job.surface, d))
    && (forall name <- run.outputs :: Sourced(job.surface, run.extractions, name, run.outputs[name].text))
  }

  predicate SameDeeds<W(==)>(a: Run<W>, b: Run<W>) {
    a.dispatched == b.dispatched && a.extractions == b.extractions && a.outputs == b.outputs
  }

  // ---------------------------------------------------------------- one attempt

  lemma {:induction false} EvaluatedInTurn<W>(job: Job<W>, conditions: seq<Condition>, run: Run<W>)
    ensures
      var out := AllEvaluate(job, conditions, run);
      out.reply == Value(true) ==>
        HeldInTurn(job.surface, conditions, TextsOf(run.outputs), run.world, out.run.world)
  {
    if conditions != [] {
      EvaluatedInTurn(job, conditions[1..], Evaluate(job, conditions[0], run).run);
    }
  }

  lemma {:induction false} HeldEvaluates<W>(job: Job<W>, conditions: seq<Condition>, run: Run<W>, to: W)
    requires HeldInTurn(job.surface, conditions, TextsOf(run.outputs), run.world, to)
    ensures AllEvaluate(job, conditions, run).reply == Value(true)
    ensures AllEvaluate(job, conditions, run).run.world == to
  {
    if conditions != [] {
      HeldEvaluates(job, conditions[1..], Evaluate(job, conditions[0], run).run, to);
    }
  }

  lemma PreparedIsAsked<W(!new)>(job: Job<W>, step: Step, run: Run<W>, version: nat, allow: bool)
    ensures
      var out := Prepare(job, step, run, version, allow);
      out.reply.Value? && out.reply.value.Go? ==>
        && run.lease == Lease(version, true)
        && Asked(job.surface, step.body, TextsOf(run.outputs), run.world, out.reply.value.target, out.run.world, Allow)
  {
    var out := Prepare(job, step, run, version, allow);
    if out.reply.Value? && out.reply.value.Go? {
      EvaluatedInTurn(job, step.body.preconditions, run);
      var ready := AllEvaluate(job, step.body.preconditions, run).run;
      var seen := Observe(job, ready);
      assert AskedBetween(job.surface, step.body, TextsOf(run.outputs), run.world, ready.world, seen.reply.value,
                          seen.run.world, out.reply.value.target, out.run.world, Allow);
    }
  }

  /** How a decision of policy ends the preparation of an attempt. */
  ghost predicate Obeys<W>(job: Job<W>, step: Step, version: nat, allow: bool, handle: Option<string>, world: W,
                           decision: Decision, out: Out<W, Prepared>)
  {
    var (framed, later) := job.surface.captureFrame(world);
    match decision
    case Allow => out.reply == Value(Go(handle)) && out.run.world == world
    case Deny => out.reply == Value(Stop(Finished(Failure("policy_blocked", Some(step.id)))))
    case RequireApproval(reason) =>
      if !allow then out.reply == Value(Stop(Finished(Failure("recovery_requires_human", Some(step.id)))))
      else if !job.allowIntervention then out.reply == Value(Stop(Finished(Failure(reason, Some(step.id)))))
      else if framed.Fails? then out.reply == Raised(framed.failure)
      else if job.surface.leaseExpired(later) then out.reply == Crashed(LeaseExpired)
      else out.reply == Value(Stop(Finished(Intervention(reason, step.id, false, 1))))
           && out.run.lease == Lease(version + 1, false)
  }

  lemma ApprovalIsSought<W(!new)>(job: Job<W>, step: Step, run: Run<W>, version: nat, reason: string)
    requires run.lease == Lease(version, true) && job.allowIntervention
    ensures
      var (framed, later) := job.surface.captureFrame(run.world);
      var out := Intervene(job, step, reason, run, version, false, 1);
      if framed.Fails? then out.reply == Raised(framed.failure)
      else if job.surface.leaseExpired(later) then out.reply == Crashed(LeaseExpired)
      else out.reply == Value(Finished(Intervention(reason, step.id, false, 1)))
           && out.run.lease == Lease(version + 1, false)
  {
    var frame := CaptureFrame(job, run);
    var (framed, later) := job.surface.captureFrame(run.world);
    assert frame == Out(Reported(framed), run.(world := later));
    if framed.Says? {
      var held := AssertCanAct(job, frame.run, version);
      assert Intervene(job, step, reason, run, version, false, 1)
          == if held.reply.Crashed? then Out(Crashed(held.reply.crash), held.run)
             else Out(Value(Finished(Intervention(reason, step.id, false, 1))),
                      held.run.(lease := Lease(version + 1, false)));
    }
  }

  /** The end of preparing an attempt, once policy has answered. */
  lemma PreparedByVerdict<W(!new)>(job: Job<W>, step: Step, run: Run<W>, version: nat, allow: bool,
                                   ready: Out<W, bool>, seen: Out<W, Observation>, target: Out<W, Option<string>>,
                                   judged: Out<W, Decision>)
    requires run.lease == Lease(version, true) && !job.surface.leaseExpired(run.world)
    requires AllEvaluate(job, step.body.preconditions, run) == ready && ready.reply == Value(true)
    requires Observe(job, ready.run) == seen && seen.reply.Value?
    requires Resolve(job, step.body.target, seen.run) == target && target.reply.Value?
    requires Replay.Judge(job, step.body, seen.reply.value, target.reply.value, target.run) == judged
    requires judged.reply.Value?
    ensures
      Prepare(job, step, run, version, allow) ==
        match judged.reply.value
        case Deny => Out(Value(Stop(Fail("policy_blocked", step))), judged.run)
        case Allow => Out(Value(Go(target.reply.value)), judged.run)
        case RequireApproval(reason) =>
          if !allow then Out(Value(Stop(Fail("recovery_requires_human", step))), judged.run) else
          var paused := Intervene(job, step, reason, judged.run, version, false, 1);
          match paused.reply
          case Raised(error) => Out(Raised(error), paused.run)
          case Crashed(crash) => Out(Crashed(crash), paused.run)
          case Value(end) => Out(Value(Stop(end)), paused.run)
  {
  }

  lemma PreparationObeys<W(!new)>(job: Job<W>, step: Step, run: Run<W>, version: nat, allow: bool,
                                  handle: Option<string>, world: W, decision: Decision)
    requires run.lease == Lease(version, true)
    requires Asked(job.surface, step.body, TextsOf(run.outputs), run.world, handle, world, decision)
    ensures Obeys(job, step, version, allow, handle, world, decision, Prepare(job, step, run, version, allow))
  {
    var s, texts := job.surface, TextsOf(run.outputs);
    var before: W, seen: Observation, observed: W :|
      AskedBetween(s, step.body, texts, run.world, before, seen, observed, handle, world, decision);
    HeldEvaluates(job, step.body.preconditions, run, before);
    var ready := AllEvaluate(job, step.body.preconditions, run);
    var look := Observe(job, ready.run);
    var resolved := Resolve(job, step.body.target, look.run);
    var judged := Replay.Judge(job, step.body, seen, handle, resolved.run);
    PreparedByVerdict(job, step, run, version, allow, ready, look, resolved, judged);
    if decision.RequireApproval? && allow && job.allowIntervention {
      ApprovalIsSought(job, step, judged.run, version, decision.reason);
    }
  }

  lemma OperatedDeeds<W>(job: Job<W>, step: Step, target: Option<string>, run: Run<W>)
    requires step.body.action.Operate?
    ensures
      var after := Perform(job, step, target, run).run;
      && after.dispatched == run.dispatched + [DeedOf(step, target, run)]
      && after.extractions == run.extractions && after.outputs == run.outputs
  {
  }

  lemma OtherDeeds<W>(job: Job<W>, step: Step, target: Option<string>, run: Run<W>)
    requires !step.body.action.Operate? && !(step.body.action.Extract? && target.Some?)
    ensures
      var after := Perform(job, step, target, run).run;
      && after.dispatched == run.dispatched && after.extractions == run.extractions && after.outputs == run.outputs
  {
    var after := Perform(job, step, target, run).run;
    match step.body.action
    case WaitFor(c) => assert after == WaitUntil(job, c, run).run;
    case Assert(c) => assert after == Evaluate(job, c, run).run;
    case CheckpointReached(_) => assert after == Evaluate(job, job.artifact.checkpoint, run).run;
    case Extract(_, _) => assert after == run;
  }

  lemma PerformedLawfully<W(!new)>(job: Job<W>, step: Step, target: Option<string>, run: Run<W>, begun: W)
    requires Lawful(job, run) && Declared(job.artifact, step) && run.lease.automation
    requires Asked(job.surface, step.body, TextsOf(run.outputs), begun, target, run.world, Allow)
    ensures Lawful(job, Perform(job, step, target, run).run)
  {
    var d, after := DeedOf(step, target, run), Perform(job, step, target, run).run;
    assert DoneFor(job.artifact, step, d);
    if step.body.action.Operate? {
      assert Cleared(job.surface, d);
      OperatedDeeds(job, step, target, run);
      MoreIsLawful(job, run, after, d);
    } else if step.body.action.Extract? && target.Some? {
      ExtractedLawfully(job, step, target, run, begun, d, after);
    } else {
      OtherDeeds(job, step, target, run);
    }
  }

  lemma MoreIsLawful<W(!new)>(job: Job<W>, run: Run<W>, after: Run<W>, d: Deed<W>)
    requires Lawful(job, run) && after.dispatched == run.dispatched + [d]
    requires after.extractions == run.extractions && after.outputs == run.outputs
    requires d.body.action.Operate? && Authored(job.artifact, d) && Cleared(job.surface, d)
    ensures Lawful(job, after)
  {
  }

  lemma ExtractedLawfully<W(!new)>(job: Job<W>, step: Step, target: Option<string>, run: Run<W>, begun: W, d: Deed<W>,
                                   after: Run<W>)
    requires Lawful(job, run) && step.body.action.Extract? && target.Some?
    requires d == DeedOf(step, target, run) && Authored(job.artifact, d)
    requires Asked(job.surface, step.body, TextsOf(run.outputs), begun, target, run.world, Allow)
    requires after == Perform(job, step, target, run).run
    ensures Lawful(job, after)
  {
    if job.surface.extract(run.world, target.value, step.body.action).0.Says? {
      var ready: W, seen: Observation, observed: W :|
        AskedBetween(job.surface, step.body, d.texts, begun, ready, seen, observed, target, run.world, Allow);
      assert AllowedOn(job.surface, d, ready, observed, seen);
      ReadingIsLawful(job, d, run, after);
    } else {
      assert SameDeeds(run, after);
    }
  }

  lemma ReadingIsLawful<W(!new)>(job: Job<W>, d: Deed<W>, run: Run<W>, after: Run<W>)
    requires Lawful(job, run) && d.body.action.Extract? && d.target.Some?
    requires Authored(job.artifact, d) && Allowed(job.surface, d)
    requires after.extractions == run.extractions + [d] && after.dispatched == run.dispatched
    requires
      var read := job.surface.extract(d.world, d.target.value, d.body.action).0;
      read.Says? && after.outputs == run.outputs[d.body.action.extracted := Reading(read.said, run.epoch)]
    ensures Lawful(job, after)
  {
    forall name <- after.outputs
      ensures Sourced(job.surface, after.extractions, name, after.outputs[name].text)
    {
      if name == d.body.action.extracted {
        assert ReadAs(job.surface, after.extractions[|run.extractions|], name, after.outputs[name].text);
      } else {
        assert Sourced(job.surface, run.extractions, name, run.outputs[name].text);
        var i :| 0 <= i < |run.extractions| && ReadAs(job.surface, run.extractions[i], name, run.outputs[name].text);
        assert after.extractions[i] == run.extractions[i];
      }
    }
  }

  lemma TryLawful<W(!new)>(job: Job<W>, step: Step, run: Run<W>, version: nat, attempt: nat, recover: bool, allow: bool)
    requires Lawful(job, run) && Declared(job.artifact, step)
    ensures Lawful(job, Try(job, step, run, version, attempt, recover, allow).out.run)
  {
    PreparedIsAsked(job, step, run, version, allow);
    var prepared := Prepare(job, step, run, version, allow);
    if prepared.reply.Value? && prepared.reply.value.Go? {
      PerformedLawfully(job, step, prepared.reply.value.target, prepared.run, run.world);
      var performed := Perform(job, step, prepared.reply.value.target, prepared.run);
      if performed.reply.Value? {
        assert SameDeeds(performed.run, Verify(job, step, performed.run, version, attempt, recover, allow).run);
      }
    }
  }

  /** An attempt hands its action over exactly if it passes the gate, and then that action is the one deed added. */
  lemma AttemptActsExactly<W(!new)>(job: Job<W>, step: Step, run: Run<W>, version: nat, attempt: nat, recover: bool,
                                    allow: bool)
    requires step.body.action.Operate?
    ensures
      var after := Try(job, step, run, version, attempt, recover, allow).out.run;
      var texts := TextsOf(run.outputs);
      && (forall handle, world | Asked(job.surface, step.body, texts, run.world, handle, world, Allow)
                                 && run.lease == Lease(version, true) ::
            after.dispatched == run.dispatched + [Deed(step.id, step.body, handle, texts, run.lease, world)])
      && (after.dispatched != run.dispatched ==>
            && run.lease == Lease(version, true)
            && exists handle, world :: Asked(job.surface, step.body, texts, run.world, handle, world, Allow))
  {
    PreparedIsAsked(job, step, run, version, allow);
    forall handle, world | Asked(job.surface, step.body, TextsOf(run.outputs), run.world, handle, world, Allow)
                           && run.lease == Lease(version, true)
      ensures Try(job, step, run, version, attempt, recover, allow).out.run.dispatched
              == run.dispatched + [Deed(step.id, step.body, handle, TextsOf(run.outputs), run.lease, world)]
    {
      PreparationObeys(job, step, run, version, allow, handle, world, Allow);
      ClearedActs(job, step, run, version, attempt, recover, allow, handle);
    }
  }

  lemma ClearedActs<W>(job: Job<W>, step: Step, run: Run<W>, version: nat, attempt: nat, recover: bool, allow: bool,
                       handle: Option<string>)
    requires step.body.action.Operate?
    requires Prepare(job, step, run, version, allow).reply == Value(Go(handle))
    ensures Try(job, step, run, version, attempt, recover, allow).out.run.dispatched
            == run.dispatched + [DeedOf(step, handle, Prepare(job, step, run, version, allow).run)]
  {
    OperatedDeeds(job, step, handle, Prepare(job, step, run, version, allow).run);
  }

  // ---------------------------------------------------------------- the two refusals

  lemma StoppedStep<W>(job: Job<W>, step: Step, run: Run<W>, version: nat, attempt: nat, recover: bool, allow: bool,
                       end: StepEnd)
    requires Prepare(job, step, run, version, allow).reply == Value(Stop(end))
    ensures ExecuteStep(job, step, run, version, attempt, recover, allow)
            == Out(Value(end), Prepare(job, step, run, version, allow).run)
  {
    StepAfterTry(job, step, run, version, attempt, recover, allow);
  }

  /** A step that policy denies fails as blocked, in main steps and in recoveries, and nothing is done for it. */
  lemma DeniedStepsAreBlocked<W(!new)>(job: Job<W>, step: Step, run: Run<W>, version: nat, attempt: nat, recover: bool,
                                       allow: bool, handle: Option<string>, world: W)
    requires run.lease == Lease(version, true)
    requires Asked(job.surface, step.body, TextsOf(run.outputs), run.world, handle, world, Deny)
    ensures
      var out := ExecuteStep(job, step, run, version, attempt, recover, allow);
      && out.reply == Value(Finished(Failure("policy_blocked", Some(step.id))))
      && SameDeeds(run, out.run) && out.run.effects == run.effects && out.run.lease == run.lease
  {
    PreparationObeys(job, step, run, version, allow, handle, world, Deny);
    StoppedStep(job, step, run, version, attempt, recover, allow,
                Finished(Failure("policy_blocked", Some(step.id))));
  }

  /**
  A step that needs approval fails inside a recovery, and fails with the reason where no human may be asked.
  Elsewhere it pauses before it has done anything, to go on behind the step once the human has acted.
  */
  lemma SensitiveStepsWait<W(!new)>(job: Job<W>, step: Step, run: Run<W>, version: nat, attempt: nat, recover: bool,
                                    allow: bool, handle: Option<string>, world: W, reason: string)
    requires run.lease == Lease(version, true)
    requires Asked(job.surface, step.body, TextsOf(run.outputs), run.world, handle, world, RequireApproval(reason))
    requires allow && job.allowIntervention ==>
               var (framed, later) := job.surface.captureFrame(world);
               framed.Says? && !job.surface.leaseExpired(later)
    ensures
      var out := ExecuteStep(job, step, run, version, attempt, recover, allow);
      && SameDeeds(run, out.run) && out.run.effects == run.effects
      && out.reply == Value(Finished(
                        if !allow then Failure("recovery_requires_human", Some(step.id))
                        else if !job.allowIntervention then Failure(reason, Some(step.id))
                        else Intervention(reason, step.id, false, 1)))
      && out.run.lease == if allow && job.allowIntervention then Lease(version + 1, false) else run.lease
  {
    PreparationObeys(job, step, run, version, allow, handle, world, RequireApproval(reason));
    StoppedStep(job, step, run, version, attempt, recover, allow,
                Prepare(job, step, run, version, allow).reply.value.end);
  }

  /** And the run ends there: what a main step fails with is the result. */
  lemma DeniedStepsEndTheRun<W(!new)>(job: Job<W>, run: Run<W>, version: nat, index: nat, first: (nat, nat),
                                      handle: Option<string>, world: W)
    requires index < |job.artifact.steps| && run.lease == Lease(version, true)
    requires Asked(job.surface, job.artifact.steps[index].body, TextsOf(run.outputs), run.world, handle, world, Deny)
    ensures
      var end := Drive(job, run, version, index, first);
      && end.Ended? && end.result == Failure("policy_blocked", Some(job.artifact.steps[index].id))
      && SameDeeds(run, end.final) && end.final.effects == run.effects
  {
    var step, attempt := job.artifact.steps[index], AttemptAt(index, first);
    var entered := run.(entries := run.entries + 1);
    DeniedStepsAreBlocked(job, step, entered, version, attempt, true, true, handle, world);
    FailingEndsTheRun(job, run, version, index, first,
                      ExecuteStep(job, step, entered, version, attempt, true, true).run, "policy_blocked");
  }

  lemma FailingEndsTheRun<W>(job: Job<W>, run: Run<W>, version: nat, index: nat, first: (nat, nat), last: Run<W>,
                             code: string)
    requires index < |job.artifact.steps|
    requires ExecuteStep(job, job.artifact.steps[index], run.(entries := run.entries + 1), version,
                         AttemptAt(index, first), true, true)
             == Out(Value(Fail(code, job.artifact.steps[index])), last)
    ensures Drive(job, run, version, index, first) == Ended(Failure(code, Some(job.artifact.steps[index].id)), last)
  {
    MainIsFinish(job, job.artifact.steps[index], run, version, AttemptAt(index, first));
    RoundSettles(job, run, version, index, first);
    DriveGoesOn(job, run, version, index, first);
  }

  // ---------------------------------------------------------------- whole runs

  lemma {:induction false} StepLawful<W(!new)>(job: Job<W>, step: Step, run: Run<W>, version: nat, attempt: nat,
                                               recover: bool, allow: bool)
    requires Lawful(job, run) && Declared(job.artifact, step)
    ensures Lawful(job, ExecuteStep(job, step, run, version, attempt, recover, allow).run)
    decreases step.body.retry.maxAttempts - attempt
  {
    TryLawful(job, step, run, version, attempt, recover, allow);
    StepAfterTry(job, step, run, version, attempt, recover, allow);
    var tried := Try(job, step, run, version, attempt, recover, allow);
    if tried.out.reply.Raised? {
      if Retryable(step, tried.out.reply.error, attempt) {
        assert SameDeeds(tried.out.run, Repeating(step, run, tried.out.run));
        StepLawful(job, step, Repeating(step, run, tried.out.run), version, attempt + 1, recover, allow);
      } else {
        assert SameDeeds(tried.out.run, GiveUp(job, step, tried.out.reply.error, tried.out.run, version,
                                               tried.dispatched, attempt, recover, allow).run);
      }
    }
  }

  lemma {:induction false} RecoverLawful<W(!new)>(job: Job<W>, steps: seq<Step>, run: Run<W>, version: nat)
    requires Lawful(job, run) && (forall step <- steps :: Declared(job.artifact, step))
    ensures Lawful(job, RecoverFrom(job, steps, run, version).run)
    decreases |steps|
  {
    if steps != [] {
      StepLawful(job, steps[0], run, version, 1, false, false);
      RecoverNext(job, steps, run, version);
      var stepped := ExecuteStep(job, steps[0], run, version, 1, false, false);
      var beat := Heartbeat(job, stepped.run, version);
      assert SameDeeds(stepped.run, beat.run);
      if stepped.reply == Value(Done) && beat.reply.Value? {
        RecoverLawful(job, steps[1..], beat.run, beat.reply.value);
      }
    }
  }

  lemma RecoveryLawful<W(!new)>(job: Job<W>, recovery: Recovery, run: Run<W>, version: nat)
    requires Lawful(job, run) && recovery in job.artifact.recoveries
    ensures Lawful(job, ExecuteRecovery(job, recovery, run, version).run)
  {
    var beat := Heartbeat(job, Started(run, recovery), version);
    assert SameDeeds(run, beat.run);
    if beat.reply.Value? {
      RecoverLawful(job, recovery.steps, beat.run, beat.reply.value);
    }
  }

  lemma FinishLawful<W(!new)>(job: Job<W>, stepped: Out<W, StepEnd>, version: nat)
    requires Lawful(job, stepped.run)
    ensures Lawful(job, FinishMain(job, stepped, version).run)
  {
    if stepped.reply.Value? && stepped.reply.value.Recover? {
      var found := FindRecovery(job.artifact.recoveries, stepped.reply.value.id);
      if found.Some? {
        RecoveryLawful(job, found.value, stepped.run, version);
      }
    }
  }

  lemma MainLawful<W(!new)>(job: Job<W>, step: Step, run: Run<W>, version: nat, attempt: nat)
    requires Lawful(job, run) && step in job.artifact.steps
    ensures Lawful(job, ExecuteMain(job, step, run, version, attempt).run)
  {
    var entered := run.(entries := run.entries + 1);
    assert SameDeeds(run, entered);
    MainIsFinish(job, step, run, version, attempt);
    StepLawful(job, step, entered, version, attempt, true, true);
    FinishLawful(job, ExecuteStep(job, step, entered, version, attempt, true, true), version);
  }

  /** Going on or leaving does nothing to the surface that counts as a deed. */
  lemma SettleDoesNothing<W>(job: Job<W>, main: Out<W, MainEnd>, version: nat, index: nat)
    requires index < |job.artifact.steps|
    ensures
      var round := Settle(job, main, version, index);
      SameDeeds(main.run, if round.Over? then RunOf(round.end) else round.run)
  {
  }

  lemma {:induction false} DriveLawful<W(!new)>(job: Job<W>, run: Run<W>, version: nat, index: nat, first: (nat, nat))
    requires Lawful(job, run) && index <= |job.artifact.steps|
    ensures Lawful(job, RunOf(Drive(job, run, version, index, first)))
    decreases Budget(job.artifact.recoveries, run.uses), |job.artifact.steps| - index
  {
    if index == |job.artifact.steps| {
      assert SameDeeds(run, RunOf(Complete(job, run)));
    } else {
      var step, attempt := job.artifact.steps[index], AttemptAt(index, first);
      MainLawful(job, step, run, version, attempt);
      SettleDoesNothing(job, ExecuteMain(job, step, run, version, attempt), version, index);
      match DriveOnce(job, run, version, index, first) {
        case Over(_) =>
        case Next(run', version', index') => DriveLawful(job, run', version', index', first);
      }
    }
  }

  lemma NotedLawfully<W(!new)>(job: Job<W>, step: Step, run: Run<W>, before: W, seen: Observation)
    requires Lawful(job, run) && step in job.artifact.steps && step.body.action.Extract? && step.body.target.Some?
    requires job.surface.observe(before).0 == Says(seen)
    ensures
      var target := Resolve(job, step.body.target, run);
      target.reply.Value? ==>
        && target.reply.value.Some?
        && var decided := Replay.Judge(job, step.body, seen, target.reply.value, target.run);
        decided.reply == Value(Allow) ==>
          var (answer, world) := job.surface.extract(decided.run.world, target.reply.value.value, step.body.action);
          answer.Says? ==> Lawful(job, Noted(decided.run, step, target.reply.value, answer.said, world))
  {
    var target := Resolve(job, step.body.target, run);
    if target.reply.Value? {
      var decided := Replay.Judge(job, step.body, seen, target.reply.value, target.run);
      if decided.reply == Value(Allow) {
        var (answer, world) := job.surface.extract(decided.run.world, target.reply.value.value, step.body.action);
        if answer.Says? {
          var d := DeedOf(step, target.reply.value, decided.run);
          assert DoneFor(job.artifact, step, d);
          assert AllowedOn(job.surface, d, before, run.world, seen);
          assert SameDeeds(run, decided.run);
          ReadingIsLawful(job, d, decided.run, Noted(decided.run, step, target.reply.value, answer.said, world));
        }
      }
    }
  }

  lemma {:induction false} ReadAgainLawful<W(!new)>(job: Job<W>, names: seq<string>, steps: seq<Step>,
                                                    seen: Observation, run: Run<W>, before: W)
    requires Lawful(job, run) && (forall step <- steps :: step in job.artifact.steps)
    requires job.surface.observe(before).0 == Says(seen)
    ensures Lawful(job, ReadAgain(job, names, steps, seen, run).run)
    decreases |names|
  {
    if names != [] && LastExtraction(steps, names[0]).Some? {
      var step := LastExtraction(steps, names[0]).value;
      if step.body.target.Some? {
        NotedLawfully(job, step, run, before, seen);
        ReadOn(job, names, steps, seen, run, step);
        var next := ReadNext(job, step, seen, run);
        if next.reply.Value? {
          ReadAgainLawful(job, names[1..], steps, seen, next.run, before);
        } else {
          assert SameDeeds(run, next.run);
        }
      }
    }
  }

  /** After the readings a check only asks. */
  lemma CheckOnlyReads<W>(job: Job<W>, k: Continuation<W>, run: Run<W>)
    requires k.index < |job.artifact.steps|
    ensures
      var seen := Observe(job, run);
      SameDeeds(ValidateResume(job, k, run).run,
                if seen.reply.Raised? || !seen.reply.value.locationAllowed then seen.run
                else ReadForCheck(job, k, seen.reply.value, seen.run).run)
  {
  }

  lemma ReadLawfully<W(!new)>(job: Job<W>, k: Continuation<W>, seen: Observation, run: Run<W>, before: W)
    requires Lawful(job, run) && k.index < |job.artifact.steps| && job.surface.observe(before).0 == Says(seen)
    ensures Lawful(job, ReadForCheck(job, k, seen, run).run)
  {
    ReadNamesLawfully(job, NamesNeeded(job, k), k.index + 1, seen, run, before);
  }

  lemma ReadNamesLawfully<W(!new)>(job: Job<W>, names: seq<string>, n: nat, seen: Observation, run: Run<W>, before: W)
    requires Lawful(job, run) && n <= |job.artifact.steps| && job.surface.observe(before).0 == Says(seen)
    ensures Lawful(job, ReadAgain(job, names, job.artifact.steps[..n], seen, run.(outputs := map[])).run)
  {
    ClearedIsLawful(job, run);
    FirstSteps(job.artifact.steps, n);
    ReadAgainLawful(job, names, job.artifact.steps[..n], seen, run.(outputs := map[]), before);
  }

  lemma ClearedIsLawful<W(!new)>(job: Job<W>, run: Run<W>)
    requires Lawful(job, run)
    ensures Lawful(job, run.(outputs := map[]))
  {
  }

  lemma FirstSteps(steps: seq<Step>, n: nat)
    requires n <= |steps|
    ensures forall step <- steps[..n] :: step in steps
  {
  }

  lemma CheckLawful<W(!new)>(job: Job<W>, k: Continuation<W>, run: Run<W>)
    requires Lawful(job, run) && k.index < |job.artifact.steps|
    ensures Lawful(job, ValidateResume(job, k, run).run)
  {
    CheckOnlyReads(job, k, run);
    var seen := Observe(job, run);
    assert SameDeeds(run, seen.run);
    if seen.reply.Value? {
      ReadLawfully(job, k, seen.reply.value, seen.run, run.world);
    }
  }

  lemma ResumeLawful<W(!new)>(job: Job<W>, k: Continuation<W>, checked: Out<W, Option<Id>>, version: nat)
    requires Lawful(job, checked.run) && k.index < |job.artifact.steps|
    ensures Lawful(job, RunOf(Resume(job, k, checked, version)))
  {
    if checked.reply.Value? {
      var held := checked.run.(lease := Lease(version, true));
      assert SameDeeds(checked.run, held);
      DriveLawful(job, held, version, StartAt(k), (k.index, k.retryAttempt));
    }
  }

  lemma FirstSegmentLawful<W(!new)>(job: Job<W>, world: W)
    ensures Lawful(job, RunOf(Execute(job, world)))
  {
    var ready := AllEvaluate(job, job.artifact.preconditions, Begin(world));
    assert SameDeeds(Begin(world), ready.run);
    if ready.reply == Value(true) {
      DriveLawful(job, ready.run, 1, 0, (0, 1));
    }
  }

  /**
  In every whole run, on every surface, through retries, recoveries and any number of handoffs: each action handed
  to the surface is that of a declared step and was judged in that attempt, while automation held the lease, to be
  allowed in the very world it was done in, where the step's preconditions had just held; each reading is an allowed
  one too; and every output is a text that such a reading gave.
  */
  lemma {:induction false} EveryDeedIsAllowed<W(!new)>(job: Job<W>, world: W, backs: seq<Handback<W>>)
    ensures Lawful(job, RunOf(Life(job, world, backs)))
  {
    if backs == [] {
      FirstSegmentLawful(job, world);
    } else {
      EveryDeedIsAllowed(job, world, backs[..|backs| - 1]);
      var before := Life(job, world, backs[..|backs| - 1]);
      if before.PausedAt? && before.kept.index < |job.artifact.steps| {
        var k, back := before.kept, backs[|backs| - 1];
        assert SameDeeds(k.run, Returned(k, back));
        CheckLawful(job, k, Returned(k, back));
        ResumeLawful(job, k, ValidateResume(job, k, Returned(k, back)), back.version);
      }
    }
  }

  /** What policy never allows is never done, whatever else the surface answers. */
  lemma TheForbiddenIsNeverDone<W(!new)>(job: Job<W>, world: W, backs: seq<Handback<W>>, body: StepBody)
    requires forall w, seen, handle :: job.surface.policy(w, body, seen, handle) != Says(Allow)
    ensures
      var run := RunOf(Life(job, world, backs));
      && (forall d <- run.dispatched :: d.body != body)
      && (forall d <- run.extractions :: d.body != body)
  {
    EveryDeedIsAllowed(job, world, backs);
  }

  /** The invocation is valid, and each of the artifact's preconditions was answered yes in turn. */
  ghost predicate MayStart<W(!new)>(job: Job<W>, world: W) {
    && job.inputsValid && job.tenant in job.artifact.variants
    && exists ready :: HeldInTurn(job.surface, job.artifact.preconditions, map[], world, ready)
  }

  /** A run that may not start fails before its first step, for good. */
  lemma {:induction false} NothingBeforeTheStart<W(!new)>(job: Job<W>, world: W, backs: seq<Handback<W>>)
    requires !MayStart(job, world)
    ensures
      var end := Life(job, world, backs);
      && end.Ended? && end.result.Failure? && end.result.step == None
      && end.final.entries == 0 && end.final.dispatched == [] && end.final.extractions == []
  {
    if backs == [] {
      EvaluatedInTurn(job, job.artifact.preconditions, Begin(world));
      assert TextsOf(map[]) == map[];
    } else {
      NothingBeforeTheStart(job, world, backs[..|backs| - 1]);
    }
  }
}
