/** The replay engine as the program runs it: loops over steps, attempts and conditions that update dictionaries. */
module ReplayEngine {
  import opened Prelude
  import opened Capability
  import opened Replay

  /** Puts what a loop has already collected in front of what the rest will collect. */
  function Collected<W>(hits: seq<Id>, rest: Out<W, seq<Id>>): Out<W, seq<Id>> {
    if rest.reply.Value? then Out(Value(hits + rest.reply.value), rest.run) else rest
  }

  lemma CollectedNothing<W>(rest: Out<W, seq<Id>>)
    ensures Collected([], rest) == rest
  {
    assert rest.reply.Value? ==> [] + rest.reply.value == rest.reply.value;
  }

  lemma CollectedNext<W>(job: Job<W>, kind: Branching, refs: seq<Id>, indexed: map<Id, Condition>, run: Run<W>,
                         hits: seq<Id>)
    requires refs != [] && refs[0] in indexed
    ensures
      var hit := Replay.Ask(job, kind, refs[0], indexed[refs[0]], run);
      Collected(hits, Replay.Matching(job, kind, refs, indexed, run)) ==
        if hit.reply.Raised? then Out(Raised(hit.reply.error), hit.run) else
        Collected(if hit.reply.value then hits + [refs[0]] else hits,
                  Replay.Matching(job, kind, refs[1..], indexed, hit.run))
  {
    var hit := Replay.Ask(job, kind, refs[0], indexed[refs[0]], run);
    if hit.reply.Value? {
      var rest := Replay.Matching(job, kind, refs[1..], indexed, hit.run);
      if rest.reply.Value? {
        assert hits + ([refs[0]] + rest.reply.value) == hits + [refs[0]] + rest.reply.value;
      }
    }
  }

  class Engine<!W> {
    const job: Job<W>
    var world: W
    var lease: Replay.Lease
    var outputs: map<string, Reading>
    var uses: map<Id, nat>
    // history
    var epoch: nat
    var stale: bool
    var marked: bool
    var lied: set<Id>
    var effects: seq<Id>
    var dispatched: seq<Deed<W>>
    var extractions: seq<Deed<W>>
    var entries: nat
    var starts: seq<Id>

    function State(): Run<W>
      reads this
    {
      Run(world, lease, outputs, uses, epoch, stale, marked, lied, effects, dispatched, extractions, entries, starts)
    }

    constructor (job: Job<W>, world: W)
      ensures this.job == job && State() == Begin(world)
    {
      this.job, this.world := job, world;
      lease := Replay.Lease(1, true);
      outputs, uses := map[], map[];
      epoch, stale, marked, lied := 0, false, false, {};
      effects, dispatched, extractions, entries, starts := [], [], [], 0, [];
    }

    // ---------------------------------------------------------------- the ports

    method Evaluate(c: Condition) returns (reply: Reply<bool>)
      modifies this
      ensures Out(reply, State()) == Replay.Evaluate(job, c, old(State()))
    {
      var (answer, next) := job.surface.evaluate(world, c, TextsOf(outputs));
      stale := stale || !AllFrom(outputs, epoch);
      world := next;
      reply := Reported(answer);
    }

    method Ask(kind: Branching, ref: Id, c: Condition) returns (reply: Reply<bool>)
      modifies this
      ensures Out(reply, State()) == Replay.Ask(job, kind, ref, c, old(State()))
    {
      var before := world;
      reply := Evaluate(c);
      marked := marked || job.watch.branch(kind, ref, before, reply, world);
    }

    method Judge(body: StepBody, seen: Observation, target: Option<string>) returns (reply: Reply<Decision>)
      modifies this`marked
      ensures Out(reply, State()) == Replay.Judge(job, body, seen, target, old(State()))
    {
      var answer := job.surface.policy(world, body, seen, target);
      marked := marked || job.watch.verdict(world, body, seen, target, answer);
      reply := Reported(answer);
    }

    method WaitUntil(c: Condition) returns (reply: Reply<bool>)
      modifies this
      ensures Out(reply, State()) == Replay.WaitUntil(job, c, old(State()))
    {
      var (answer, next) := job.surface.waitUntil(world, c, TextsOf(outputs));
      stale := stale || !AllFrom(outputs, epoch);
      world := next;
      reply := Reported(answer);
    }

    method Observe() returns (reply: Reply<Observation>)
      modifies this
      ensures Out(reply, State()) == Replay.Observe(job, old(State()))
    {
      var (answer, next) := job.surface.observe(world);
      world := next;
      reply := Reported(answer);
    }

    method CaptureFrame() returns (reply: Reply<()>)
      modifies this
      ensures Out(reply, State()) == Replay.CaptureFrame(job, old(State()))
    {
      var (answer, next) := job.surface.captureFrame(world);
      world := next;
      reply := Reported(answer);
    }

    method Resolve(target: Option<Locator>) returns (reply: Reply<Option<string>>)
      modifies this
      ensures Out(reply, State()) == Replay.Resolve(job, target, old(State()))
    {
      match target
      case None => reply := Value(None);
      case Some(locator) =>
        var (answer, next) := job.surface.resolve(world, locator);
        world := next;
        reply := match answer case Says(handle) => Value(Some(handle)) case Fails(failure) => Raised(failure);
    }

    method Heartbeat(version: nat) returns (reply: Reply<nat>)
      modifies this
      ensures Out(reply, State()) == Replay.Heartbeat(job, old(State()), version)
    {
      if lease != Replay.Lease(version, true) { return Crashed(LeaseConflict); }
      if job.surface.leaseExpired(world) { return Crashed(LeaseExpired); }
      lease := Replay.Lease(version + 1, true);
      reply := Value(version + 1);
    }

    // ---------------------------------------------------------------- loops over conditions

    method AllEvaluate(conditions: seq<Condition>) returns (reply: Reply<bool>)
      modifies this
      ensures Out(reply, State()) == Replay.AllEvaluate(job, conditions, old(State()))
    {
      var i := 0;
      while i < |conditions|
        invariant i <= |conditions|
        invariant Replay.AllEvaluate(job, conditions, old(State())) == Replay.AllEvaluate(job, conditions[i..], State())
      {
        var holds := Evaluate(conditions[i]);
        if holds != Value(true) { return holds; }
        assert conditions[i..][1..] == conditions[i + 1..];
        i := i + 1;
      }
      reply := Value(true);
    }

    method AllAwaited(conditions: seq<Condition>) returns (reply: Reply<bool>)
      modifies this
      ensures Out(reply, State()) == Replay.AllAwaited(job, conditions, old(State()))
    {
      var i := 0;
      while i < |conditions|
        invariant i <= |conditions|
        invariant Replay.AllAwaited(job, conditions, old(State())) == Replay.AllAwaited(job, conditions[i..], State())
      {
        var holds := WaitUntil(conditions[i]);
        if holds != Value(true) { return holds; }
        assert conditions[i..][1..] == conditions[i + 1..];
        i := i + 1;
      }
      reply := Value(true);
    }

    method IdentityVerified(conditions: seq<Condition>) returns (verified: bool)
      modifies this
      ensures Out(Value(verified), State()) == Replay.IdentityVerified(job, conditions, old(State()))
    {
      var i := 0;
      while i < |conditions|
        invariant i <= |conditions|
        invariant Replay.IdentityVerified(job, conditions, old(State()))
                  == Replay.IdentityVerified(job, conditions[i..], State())
      {
        assert conditions[i..][1..] == conditions[i + 1..];
        if ContainsIdentity(conditions[i]) {
          var waited := WaitUntil(conditions[i]);
          if waited != Value(true) { return false; }
        }
        i := i + 1;
      }
      verified := true;
    }

    method IdentityEvaluates(conditions: seq<Condition>) returns (reply: Reply<bool>)
      modifies this
      ensures Out(reply, State()) == Replay.IdentityEvaluates(job, conditions, old(State()))
    {
      var i := 0;
      while i < |conditions|
        invariant i <= |conditions|
        invariant Replay.IdentityEvaluates(job, conditions, old(State()))
                  == Replay.IdentityEvaluates(job, conditions[i..], State())
      {
        assert conditions[i..][1..] == conditions[i + 1..];
        if ContainsIdentity(conditions[i]) {
          var holds := Evaluate(conditions[i]);
          if holds != Value(true) { return holds; }
        }
        i := i + 1;
      }
      reply := Value(true);
    }

    method Matching(kind: Branching, refs: seq<Id>, indexed: map<Id, Condition>) returns (reply: Reply<seq<Id>>)
      modifies this
      ensures Out(reply, State()) == Replay.Matching(job, kind, refs, indexed, old(State()))
    {
      var i, hits := 0, [];
      CollectedNothing(Replay.Matching(job, kind, refs, indexed, State()));
      while i < |refs|
        invariant i <= |refs|
        invariant Replay.Matching(job, kind, refs, indexed, old(State()))
               == Collected(hits, Replay.Matching(job, kind, refs[i..], indexed, State()))
      {
        assert refs[i..][1..] == refs[i + 1..];
        if refs[i] !in indexed { return Crashed(MissingReference); }
        CollectedNext(job, kind, refs[i..], indexed, State(), hits);
        var hit := Ask(kind, refs[i], indexed[refs[i]]);
        if hit.Raised? { return Raised(hit.error); }
        if hit == Value(true) { hits := hits + [refs[i]]; }
        i := i + 1;
      }
      assert hits + [] == hits;
      reply := Value(hits);
    }

    method Detect(kind: Branching, refs: seq<Id>, indexed: map<Id, Condition>) returns (reply: Reply<Option<Id>>)
      modifies this
      ensures Out(reply, State()) == Replay.Detect(job, kind, refs, indexed, old(State()))
    {
      var matching := Matching(kind, refs, indexed);
      match matching
      case Raised(error) => reply := Raised(error);
      case Crashed(crash) => reply := Crashed(crash);
      case Value(hits) =>
        reply := if |hits| > 1 then Raised(Plain("branch_ambiguous"))
                 else Value(if hits == [] then None else Some(hits[0]));
    }

    method SelectRecovery(step: Step) returns (reply: Reply<Option<StepEnd>>)
      modifies this
      ensures Out(reply, State()) == Replay.SelectRecovery(job, step, old(State()))
    {
      var detected := Detect(Recoveries, step.recoveryRefs, Triggers(job.artifact.recoveries));
      match detected
      case Raised(error) => reply := Raised(error);
      case Crashed(crash) => reply := Crashed(crash);
      case Value(None) => reply := Value(None);
      case Value(Some(id)) =>
        var found := FindRecovery(job.artifact.recoveries, id);
        reply := if found.Some? && Uses(uses, id) >= found.value.maxUses
                 then Value(Some(Fail("recovery_exhausted", step)))
                 else Value(Some(Recover(id)));
    }

    method MaybeRecover(step: Step, allowed: bool) returns (reply: Reply<Option<StepEnd>>)
      modifies this
      ensures Out(reply, State()) == Replay.MaybeRecover(job, step, old(State()), allowed)
    {
      if allowed {
        reply := SelectRecovery(step);
      } else {
        reply := Value(None);
      }
    }

    // ---------------------------------------------------------------- one attempt

    method Perform(step: Step, target: Option<string>) returns (reply: Reply<()>)
      modifies this
      ensures Out(reply, State()) == Replay.Perform(job, step, target, old(State()))
    {
      match step.body.action
      case WaitFor(condition) =>
        var holds := WaitUntil(condition);
        reply := if holds.Raised? then Raised(holds.error)
                 else if holds == Value(true) then Value(()) else Raised(Plain("action_condition_mismatch"));
      case Assert(condition) =>
        var holds := Evaluate(condition);
        reply := if holds.Raised? then Raised(holds.error)
                 else if holds == Value(true) then Value(()) else Raised(Plain("action_condition_mismatch"));
      case CheckpointReached(_) =>
        var holds := Evaluate(job.artifact.checkpoint);
        reply := if holds.Raised? then Raised(holds.error)
                 else if holds == Value(true) then Value(()) else Raised(Plain("action_condition_mismatch"));
      case Extract(_, _) => reply := Take(step, target);
      case Operate(_, _) => reply := Hand(step, target);
    }

    /** An action that is handed to the surface. */
    method Hand(step: Step, target: Option<string>) returns (reply: Reply<()>)
      requires step.body.action.Operate?
      modifies this
      ensures Out(reply, State()) == Replay.Perform(job, step, target, old(State()))
    {
      var deed := Deed(step.id, step.body, target, TextsOf(outputs), lease, world);
      var done := job.surface.execute(world, step.body.action, target);
      world := done.world;
      dispatched := dispatched + [deed];
      if done.effect { effects := effects + [step.id]; }
      reply := match done.answer
        case Fails(failure) => Raised(failure)
        case Says(NotCompleted(code)) => Raised(Plain(if code.Some? then code.value else "action_failed"))
        case Says(Completed) => Value(());
    }

    /** A text that is read. */
    method Take(step: Step, target: Option<string>) returns (reply: Reply<()>)
      requires step.body.action.Extract?
      modifies this
      ensures Out(reply, State()) == Replay.Perform(job, step, target, old(State()))
    {
      if target.None? { return Raised(Plain("target_absent")); }
      var deed := Deed(step.id, step.body, target, TextsOf(outputs), lease, world);
      var (answer, next) := job.surface.extract(world, target.value, step.body.action);
      world := next;
      if answer.Fails? { return Raised(answer.failure); }
      outputs := outputs[step.body.action.extracted := Reading(answer.said, epoch)];
      extractions := extractions + [deed];
      reply := Value(());
    }

    method Intervene(step: Step, code: string, version: nat, retryStep: bool, attempt: nat)
      returns (reply: Reply<StepEnd>)
      modifies this
      ensures Out(reply, State()) == Replay.Intervene(job, step, code, old(State()), version, retryStep, attempt)
    {
      if !job.allowIntervention { return Value(Fail(code, step)); }
      var frame := CaptureFrame();
      if frame.Raised? { return Raised(frame.error); }
      if lease != Replay.Lease(version, true) { return Crashed(LeaseConflict); }
      if job.surface.leaseExpired(world) { return Crashed(LeaseExpired); }
      lease := Replay.Lease(version + 1, false);
      reply := Value(Finished(Intervention(code, step.id, retryStep, attempt)));
    }

    method SurfaceFailure(step: Step, error: SurfaceError, version: nat, dispatched: bool, attempt: nat,
                          allowIntervention: bool)
      returns (reply: Reply<StepEnd>)
      modifies this
      ensures Out(reply, State())
              == Replay.SurfaceFailure(job, step, error, old(State()), version, dispatched, attempt, allowIntervention)
    {
      if !allowIntervention || !job.allowIntervention
        || !(Eligible(error.code, dispatched) || error.interventionRecommended) {
        return Value(Fail(error.code, step));
      }
      var seen := Observe();
      if seen.Raised? { return Value(Fail(error.code, step)); }
      var decided := Judge(step.body, seen.value, None);
      if decided.Raised? { return Value(Fail(error.code, step)); }
      if decided.value.Deny? { return Value(Fail("policy_blocked", step)); }
      reply := Intervene(step, error.code, version, !dispatched, attempt);
    }

    method Prepare(step: Step, version: nat, allowIntervention: bool) returns (reply: Reply<Prepared>)
      modifies this
      ensures Out(reply, State()) == Replay.Prepare(job, step, old(State()), version, allowIntervention)
    {
      if lease != Replay.Lease(version, true) { return Crashed(LeaseConflict); }
      if job.surface.leaseExpired(world) { return Crashed(LeaseExpired); }
      var ready := AllEvaluate(step.body.preconditions);
      if ready.Raised? { return Raised(ready.error); }
      if ready != Value(true) { return Value(Stop(Fail("step_precondition_mismatch", step))); }
      var seen := Observe();
      if seen.Raised? { return Raised(seen.error); }
      var target := Resolve(step.body.target);
      if target.Raised? { return Raised(target.error); }
      var decided := Judge(step.body, seen.value, target.value);
      match decided
      case Raised(error) => reply := Raised(error);
      case Value(Deny) => reply := Value(Stop(Fail("policy_blocked", step)));
      case Value(RequireApproval(reason)) =>
        if !allowIntervention { return Value(Stop(Fail("recovery_requires_human", step))); }
        var paused := Intervene(step, reason, version, false, 1);
        reply := match paused
          case Value(end) => Value(Stop(end))
          case Raised(error) => Raised(error)
          case Crashed(crash) => Crashed(crash);
      case Value(Allow) => reply := Value(Go(target.value));
    }

    method Unconfirmed(step: Step, version: nat, attempt: nat, allowRecovery: bool, allowIntervention: bool)
      returns (reply: Reply<StepEnd>)
      modifies this
      ensures Out(reply, State())
              == Replay.Unconfirmed(job, step, old(State()), version, attempt, allowRecovery, allowIntervention)
    {
      var recovery := MaybeRecover(step, allowRecovery);
      if recovery.Raised? { return Raised(recovery.error); }
      if recovery.Crashed? { return Crashed(recovery.crash); }
      if recovery.value.Some? { return Value(recovery.value.value); }
      reply := GiveIn(step, version, attempt, allowRecovery, allowIntervention);
    }

    method GiveIn(step: Step, version: nat, attempt: nat, allowRecovery: bool, allowIntervention: bool)
      returns (reply: Reply<StepEnd>)
      modifies this
      ensures Out(reply, State())
              == Replay.GiveIn(job, step, old(State()), version, attempt, allowRecovery, allowIntervention)
    {
      var failure := Detect(Failures, step.failureRefs, Detectors(job.artifact.failures));
      if failure.Raised? { return Raised(failure.error); }
      if failure.Crashed? { return Crashed(failure.crash); }
      if failure.value.Some? { return Value(Fail(failure.value.value, step)); }
      reply := SurfaceFailure(step, Plain("postcondition_mismatch"), version, step.body.action.Operate?, attempt,
                              allowIntervention);
    }

    method Confirm(step: Step, version: nat, attempt: nat, allowRecovery: bool, allowIntervention: bool)
      returns (reply: Reply<StepEnd>)
      modifies this
      ensures Out(reply, State()) == Replay.Confirm(job, step, step.body.postconditions, old(State()), version, attempt,
                                                    allowRecovery, allowIntervention)
    {
      var conditions, i := step.body.postconditions, 0;
      while i < |conditions|
        invariant i <= |conditions|
        invariant Replay.Confirm(job, step, conditions, old(State()), version, attempt, allowRecovery,
                                 allowIntervention)
               == Replay.Confirm(job, step, conditions[i..], State(), version, attempt, allowRecovery,
                                 allowIntervention)
      {
        assert conditions[i..][1..] == conditions[i + 1..];
        if !ContainsIdentity(conditions[i]) {
          var holds := WaitUntil(conditions[i]);
          if holds.Raised? { return Raised(holds.error); }
          var outcome := Detect(Outcomes, step.outcomeRefs, Detectors(job.artifact.outcomes));
          if outcome.Raised? { return Raised(outcome.error); }
          if outcome.Crashed? { return Crashed(outcome.crash); }
          if outcome.value.Some? { return Value(Finished(BusinessOutcome(outcome.value.value))); }
          if holds != Value(true) {
            reply := Unconfirmed(step, version, attempt, allowRecovery, allowIntervention);
            return;
          }
        }
        i := i + 1;
      }
      reply := Value(Done);
    }

    method EarlyBranch(step: Step, allowRecovery: bool) returns (reply: Reply<StepEnd>)
      modifies this
      ensures Out(reply, State()) == Replay.EarlyBranch(job, step, old(State()), allowRecovery)
    {
      var outcome := Detect(Outcomes, step.outcomeRefs, Detectors(job.artifact.outcomes));
      if outcome.Raised? { return Raised(outcome.error); }
      if outcome.Crashed? { return Crashed(outcome.crash); }
      if outcome.value.Some? { return Value(Finished(BusinessOutcome(outcome.value.value))); }
      var failure := Detect(Failures, step.failureRefs, Detectors(job.artifact.failures));
      if failure.Raised? { return Raised(failure.error); }
      if failure.Crashed? { return Crashed(failure.crash); }
      if failure.value.Some? { return Value(Fail(failure.value.value, step)); }
      var recovery := MaybeRecover(step, allowRecovery);
      if recovery.Raised? { return Raised(recovery.error); }
      if recovery.Crashed? { return Crashed(recovery.crash); }
      reply := Value(if recovery.value.Some? then recovery.value.value else Done);
    }

    method Verify(step: Step, version: nat, attempt: nat, allowRecovery: bool, allowIntervention: bool)
      returns (reply: Reply<StepEnd>)
      modifies this
      ensures Out(reply, State())
              == Replay.Verify(job, step, old(State()), version, attempt, allowRecovery, allowIntervention)
    {
      var identity := IdentityVerified(step.body.postconditions);
      if !identity { return Value(Fail("postcondition_mismatch", step)); }
      reply := EarlyBranch(step, allowRecovery);
      if reply == Value(Done) {
        reply := Confirm(step, version, attempt, allowRecovery, allowIntervention);
      }
    }

    method Try(step: Step, version: nat, attempt: nat, allowRecovery: bool, allowIntervention: bool)
      returns (reply: Reply<StepEnd>, dispatch: bool)
      modifies this
      ensures Attempt(Out(reply, State()), dispatch)
           == Replay.Try(job, step, old(State()), version, attempt, allowRecovery, allowIntervention)
    {
      dispatch := false;
      var prepared := Prepare(step, version, allowIntervention);
      match prepared
      case Raised(error) => reply := Raised(error);
      case Crashed(crash) => reply := Crashed(crash);
      case Value(Stop(end)) => reply := Value(end);
      case Value(Go(target)) =>
        dispatch := step.body.action.Operate?;
        var performed := Perform(step, target);
        if performed.Raised? {
          reply := Raised(performed.error);
        } else {
          reply := Verify(step, version, attempt, allowRecovery, allowIntervention);
        }
    }

    method GiveUp(step: Step, error: SurfaceError, version: nat, dispatch: bool, attempt: nat, allowRecovery: bool,
                  allowIntervention: bool)
      returns (reply: Reply<StepEnd>)
      modifies this
      ensures Out(reply, State())
           == Replay.GiveUp(job, step, error, old(State()), version, dispatch, attempt, allowRecovery,
                            allowIntervention)
    {
      var recovery := MaybeRecover(step, allowRecovery);
      if recovery.Raised? { return Raised(recovery.error); }
      if recovery.Crashed? { return Crashed(recovery.crash); }
      if recovery.value.Some? { return Value(recovery.value.value); }
      reply := SurfaceFailure(step, error, version, dispatch, attempt, allowIntervention);
    }

    method Remember(step: Step, before: seq<Id>, ghost run: Run<W>)
      requires before == run.effects
      modifies this`lied
      ensures State() == Repeating(step, run, old(State()))
    {
      if effects != before { lied := lied + {step.id}; }
    }

    /** A step with its retries; a retry is a call with the next attempt number. */
    method ExecuteStep(step: Step, version: nat, attempt: nat, allowRecovery: bool, allowIntervention: bool)
      returns (reply: Reply<StepEnd>)
      modifies this
      ensures Out(reply, State())
              == Replay.ExecuteStep(job, step, old(State()), version, attempt, allowRecovery, allowIntervention)
      decreases step.body.retry.maxAttempts - attempt
    {
      var before, dispatch := effects, false;
      ghost var tried := Replay.Try(job, step, State(), version, attempt, allowRecovery, allowIntervention);
      StepAfterTry(job, step, State(), version, attempt, allowRecovery, allowIntervention);
      reply, dispatch := Try(step, version, attempt, allowRecovery, allowIntervention);
      assert tried == Attempt(Out(reply, State()), dispatch);
      if reply.Raised? {
        var error := reply.error;
        if Retryable(step, error, attempt) {
          Remember(step, before, old(State()));
          reply := ExecuteStep(step, version, attempt + 1, allowRecovery, allowIntervention);
        } else {
          reply := GiveUp(step, error, version, dispatch, attempt, allowRecovery, allowIntervention);
        }
      }
    }

    // ---------------------------------------------------------------- recoveries and the main loop

    method RunRecovery(steps: seq<Step>, opening: nat) returns (reply: Reply<RecoveryEnd>)
      modifies this
      ensures Out(reply, State()) == RecoverFrom(job, steps, old(State()), opening)
    {
      var held, i: nat := opening, 0;
      while i < |steps|
        invariant i <= |steps|
        invariant RecoverFrom(job, steps, old(State()), opening) == RecoverFrom(job, steps[i..], State(), held)
      {
        assert steps[i..][1..] == steps[i + 1..];
        var end := ExecuteStep(steps[i], held, 1, false, false);
        if end.Crashed? { return Crashed(end.crash); }
        if end.value.Recover? { return Crashed(NestedRecovery); }
        if end.value.Finished? { return Value(Abandoned(end.value.result)); }
        var beat := Heartbeat(held);
        if beat.Crashed? { return Crashed(beat.crash); }
        held := beat.value;
        i := i + 1;
      }
      reply := Value(Restored(held));
    }

    method ExecuteRecovery(recovery: Recovery, version: nat) returns (reply: Reply<RecoveryEnd>)
      modifies this
      ensures Out(reply, State()) == Replay.ExecuteRecovery(job, recovery, old(State()), version)
    {
      uses := uses[recovery.id := Uses(uses, recovery.id) + 1];
      starts := starts + [recovery.id];
      var beat := Heartbeat(version);
      if beat.Crashed? { return Crashed(beat.crash); }
      reply := RunRecovery(recovery.steps, beat.value);
    }

    method FinishMain(end: Reply<StepEnd>, version: nat) returns (reply: Reply<MainEnd>)
      modifies this
      ensures Out(reply, State()) == Replay.FinishMain(job, Out(end, old(State())), version)
    {
      match end
      case Raised(error) => reply := Raised(error);
      case Crashed(crash) => reply := Crashed(crash);
      case Value(Done) => reply := Value(Advance);
      case Value(Finished(result)) => reply := Value(Leave(result));
      case Value(Recover(id)) =>
        var found := FindRecovery(job.artifact.recoveries, id);
        if found.None? { return Crashed(MissingReference); }
        var recovered := ExecuteRecovery(found.value, version);
        reply := match recovered
          case Raised(error) => Raised(error)
          case Crashed(crash) => Crashed(crash)
          case Value(Restored(version')) => Value(Jump(found.value.resumeAt, version'))
          case Value(Abandoned(result)) => Value(Leave(result));
    }

    method ExecuteMain(step: Step, version: nat, attempt: nat) returns (reply: Reply<MainEnd>)
      modifies this
      ensures Out(reply, State()) == Replay.ExecuteMain(job, step, old(State()), version, attempt)
    {
      entries := entries + 1;
      var end := ExecuteStep(step, version, attempt, true, true);
      reply := FinishMain(end, version);
    }

    method Complete() returns (end: RunEnd<W>)
      modifies this
      ensures end == Replay.Complete(job, old(State())) && State() == RunOf(end)
    {
      var verified := WaitUntil(job.artifact.checkpoint);
      match verified
      case Raised(error) => end := Ended(Failure(error.code, None), State());
      case Value(holds) =>
        end := Ended(if !holds then Failure("checkpoint_mismatch", None)
                     else if !job.surface.outputsValid(TextsOf(outputs)) then Failure("output_validation_failed", None)
                     else Success(outputs), State());
    }

    method Retain(result: Replay.Result, index: nat) returns (end: RunEnd<W>)
      requires result.Intervention?
      modifies this
      ensures end == Replay.Retain(job, result, old(State()), index) && State() == RunOf(end)
    {
      var seen := Observe();
      match seen
      case Raised(error) => end := Ended(Failure(error.code, None), State());
      case Value(observation) =>
        end := PausedAt(Continuation(State(), index, observation.fingerprint, result.retryStep, result.retryAttempt));
    }

    /** One round of the main loop. */
    method TakeRound(version: nat, index: nat, first: (nat, nat)) returns (round: Round<W>)
      requires index < |job.artifact.steps|
      modifies this
      ensures round == DriveOnce(job, old(State()), version, index, first)
      ensures State() == if round.Over? then RunOf(round.end) else round.run
    {
      var main := ExecuteMain(job.artifact.steps[index], version, AttemptAt(index, first));
      match main
      case Raised(error) => round := Over(Ended(Failure(error.code, None), State()));
      case Crashed(crash) => round := Over(Broken(crash, State()));
      case Value(Leave(result)) =>
        if result.Intervention? {
          var end := Retain(result, index);
          round := Over(end);
        } else {
          round := Over(Ended(result, State()));
        }
      case Value(Jump(to, version')) =>
        var beat := Heartbeat(version');
        if beat.Crashed? { return Over(Broken(beat.crash, State())); }
        var target := IndexOf(job.artifact.steps, to);
        if target.None? { return Over(Broken(MissingReference, State())); }
        round := Next(State(), beat.value, target.value);
      case Value(Advance) =>
        var beat := Heartbeat(version);
        if beat.Crashed? { return Over(Broken(beat.crash, State())); }
        round := Next(State(), beat.value, index + 1);
    }

    /** The main loop of a first run and of a resumed one. */
    method Loop(start: nat, opening: nat, first: (nat, nat)) returns (end: RunEnd<W>)
      requires start <= |job.artifact.steps|
      modifies this
      ensures end == Drive(job, old(State()), opening, start, first) && State() == RunOf(end)
    {
      var index: nat, version: nat := start, opening;
      while index < |job.artifact.steps|
        invariant index <= |job.artifact.steps|
        invariant Drive(job, old(State()), opening, start, first) == Drive(job, State(), version, index, first)
        decreases Budget(job.artifact.recoveries, uses), |job.artifact.steps| - index
      {
        var round := TakeRound(version, index, first);
        if round.Over? { return round.end; }
        version, index := round.version, round.index;
      }
      end := Complete();
    }

    method Execute() returns (end: RunEnd<W>)
      requires State() == Begin(world)
      modifies this
      ensures end == Replay.Execute(job, old(world)) && State() == RunOf(end)
    {
      if !job.inputsValid { return Ended(Failure("invalid_input", None), State()); }
      if job.tenant !in job.artifact.variants { return Ended(Failure("incompatible_tenant", None), State()); }
      var ready := AllEvaluate(job.artifact.preconditions);
      if ready.Raised? { return Ended(Failure(ready.error.code, None), State()); }
      if ready == Value(false) { return Ended(Failure("precondition_mismatch", None), State()); }
      end := Loop(0, 1, (0, 1));
    }

    // ---------------------------------------------------------------- resuming

    method ReadNext(step: Step, seen: Observation) returns (reply: Reply<()>)
      requires step.body.action.Extract? && step.body.target.Some?
      modifies this
      ensures Out(reply, State()) == Replay.ReadNext(job, step, seen, old(State()))
    {
      var target := Resolve(step.body.target);
      if target.Raised? { return Raised(target.error); }
      var decided := Judge(step.body, seen, target.value);
      if decided.Raised? { return Raised(decided.error); }
      if decided.value != Allow { return Raised(Plain("resume_output_forbidden")); }
      var deed := Deed(step.id, step.body, target.value, TextsOf(outputs), lease, world);
      var (answer, next) := job.surface.extract(world, target.value.value, step.body.action);
      world := next;
      if answer.Fails? { return Raised(answer.failure); }
      outputs := outputs[step.body.action.extracted := Reading(answer.said, epoch)];
      extractions := extractions + [deed];
      reply := Value(());
    }

    method ReadAgain(names: seq<string>, steps: seq<Step>, seen: Observation) returns (reply: Reply<()>)
      modifies this
      ensures Out(reply, State()) == Replay.ReadAgain(job, names, steps, seen, old(State()))
    {
      var i := 0;
      while i < |names|
        invariant i <= |names|
        invariant Replay.ReadAgain(job, names, steps, seen, old(State()))
                  == Replay.ReadAgain(job, names[i..], steps, seen, State())
      {
        assert names[i..][1..] == names[i + 1..];
        var extraction := LastExtraction(steps, names[i]);
        if extraction.None? || extraction.value.body.target.None? { return Raised(Plain("resume_output_unavailable")); }
        ReadOn(job, names[i..], steps, seen, State(), extraction.value);
        var read := ReadNext(extraction.value, seen);
        if read.Raised? { return Raised(read.error); }
        i := i + 1;
      }
      reply := Value(());
    }

    method ReadyToRetry(k: Continuation<W>, step: Step, seen: Observation) returns (reply: Reply<Option<Id>>)
      modifies this
      ensures Out(reply, State()) == Replay.ReadyToRetry(job, k, step, seen, old(State()))
    {
      if seen.fingerprint == k.fingerprint { return Raised(Plain("resume_state_unchanged")); }
      var ready := AllEvaluate(step.body.preconditions);
      if ready.Raised? { return Raised(ready.error); }
      if ready != Value(true) { return Raised(Plain("resume_checkpoint_mismatch")); }
      var target := Resolve(step.body.target);
      if target.Raised? { return Raised(target.error); }
      var frame := CaptureFrame();
      reply := if frame.Raised? then Raised(frame.error) else Value(None);
    }

    method ReadyToContinue(k: Continuation<W>, step: Step) returns (reply: Reply<Option<Id>>)
      modifies this
      ensures Out(reply, State()) == Replay.ReadyToContinue(job, k, step, old(State()))
    {
      var identity := IdentityEvaluates(step.body.postconditions);
      if identity.Raised? { return Raised(identity.error); }
      if identity != Value(true) { return Raised(Plain("resume_identity_mismatch")); }
      reply := Detect(Outcomes, step.outcomeRefs, Detectors(job.artifact.outcomes));
      if !reply.Value? { return; }
      if reply.value.None? {
        if step.body.postconditions == [] { return Raised(Plain("resume_checkpoint_missing")); }
        var holds := AllAwaited(step.body.postconditions);
        if holds.Raised? { return Raised(holds.error); }
        if holds != Value(true) { return Raised(Plain("resume_checkpoint_mismatch")); }
        var now := Observe();
        if now.Raised? { return Raised(now.error); }
        if now.value.fingerprint == k.fingerprint { return Raised(Plain("resume_state_unchanged")); }
      }
      var frame := CaptureFrame();
      if frame.Raised? { return Raised(frame.error); }
    }

    method ReadForCheck(k: Continuation<W>, seen: Observation) returns (reply: Reply<()>)
      requires k.index < |job.artifact.steps|
      modifies this
      ensures Out(reply, State()) == Replay.ReadForCheck(job, k, seen, old(State()))
    {
      outputs := map[];
      reply := ReadAgain(NamesNeeded(job, k), job.artifact.steps[..k.index + 1], seen);
    }

    method Check(k: Continuation<W>, step: Step, seen: Observation, read: Reply<()>) returns (reply: Reply<Option<Id>>)
      requires !read.Crashed?
      modifies this
      ensures Out(reply, State()) == Checked(job, k, step, seen, Out(read, old(State())))
    {
      if read.Raised? { return Raised(read.error); }
      if k.retryStep {
        reply := ReadyToRetry(k, step, seen);
      } else {
        reply := ReadyToContinue(k, step);
      }
    }

    method ValidateResume(k: Continuation<W>) returns (reply: Reply<Option<Id>>)
      requires k.index < |job.artifact.steps|
      modifies this
      ensures Out(reply, State()) == Replay.ValidateResume(job, k, old(State()))
    {
      var seen := Observe();
      if seen.Raised? { return Raised(seen.error); }
      if !seen.value.locationAllowed { return Raised(Plain("resume_location_not_allowed")); }
      var read := ReadForCheck(k, seen.value);
      reply := Check(k, job.artifact.steps[k.index], seen.value, read);
    }

    method Resume(k: Continuation<W>, checked: Reply<Option<Id>>, version: nat) returns (end: RunEnd<W>)
      requires k.index < |job.artifact.steps|
      modifies this
      ensures end == Replay.Resume(job, k, Out(checked, old(State())), version) && State() == RunOf(end)
    {
      match checked
      case Raised(_) => end := PausedAt(k.(run := State()));
      case Crashed(crash) => end := Broken(crash, State());
      case Value(outcome) =>
        lease := Replay.Lease(version, true);
        if outcome.Some? { return Ended(BusinessOutcome(outcome.value), State()); }
        end := Loop(StartAt(k), version, (k.index, k.retryAttempt));
    }

    /** One period of human control and what the engine does with what it left. */
    method Continue(k: Continuation<W>, back: Handback<W>) returns (end: RunEnd<W>)
      requires k.index < |job.artifact.steps| && State() == k.run
      modifies this
      ensures end == Replay.Continue(job, k, back) && State() == RunOf(end)
    {
      world, epoch := back.world, epoch + 1;
      assert State() == Returned(k, back);
      var checked := ValidateResume(k);
      end := Resume(k, checked, back.version);
    }
  }
}
