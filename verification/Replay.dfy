/**
What replaying an artifact means: the interpreter with its retries, branches, bounded recoveries,
lease versions and pauses, over an arbitrary surface.

The surface is an oracle. Each operation answers or fails and may leave any new world behind, so
pages that change by themselves are covered. `ReplayEngine` holds the loops of the program and
proves that they compute these functions.
*/
module Replay {
  import opened Prelude
  import opened Capability

  // ---------------------------------------------------------------- the surface port

  datatype SurfaceError = SurfaceError(code: string, recoverable: bool, effectAbsent: bool,
                                       interventionRecommended: bool)

  datatype Answer<+T> = Says(said: T) | Fails(failure: SurfaceError)

  datatype Observation = Observation(fingerprint: string, locationAllowed: bool)

  datatype Decision = Allow | Deny | RequireApproval(reason: string)

  datatype Receipt = Completed | NotCompleted(code: Option<string>)

  /** `effect` records what the action really did, which only the world knows. */
  datatype Execution<+W> = Execution(answer: Answer<Receipt>, effect: bool, world: W)

  type Texts = map<string, string>

  /**
  Invocation inputs are fixed for a run and are part of the surface's answers. `resolve` includes
  binding the target's inputs, `extract` the text transformation, and `order` is the order in which
  several outputs are read again.
  */
  datatype Surface<!W> = Surface(
    observe: W -> (Answer<Observation>, W),
    resolve: (W, Locator) -> (Answer<string>, W),
    evaluate: (W, Condition, Texts) -> (Answer<bool>, W),
    waitUntil: (W, Condition, Texts) -> (Answer<bool>, W),
    extract: (W, string, Action) -> (Answer<string>, W),
    execute: (W, Action, Option<string>) -> Execution<W>,
    captureFrame: W -> (Answer<()>, W),
    policy: (W, StepBody, Observation, Option<string>) -> Answer<Decision>,
    leaseExpired: W -> bool,
    outputsValid: Texts -> bool,
    order: set<string> -> seq<string>)

  datatype Branching = Outcomes | Failures | Recoveries

  /**
  What the history of a run is to look out for: an answer about a referenced branch, given in one world and
  leaving another, or a verdict of policy. The control flow never reads it.
  */
  datatype Watch<!W> = Watch(
    branch: (Branching, Id, W, Reply<bool>, W) -> bool,
    verdict: (W, StepBody, Observation, Option<string>, Answer<Decision>) -> bool)

  function Idle<W>(): Watch<W> {
    Watch((_, _, _, _, _) => false, (_, _, _, _, _) => false)
  }

  datatype Job<!W> = Job(
    artifact: Artifact,
    tenant: string,
    inputsValid: bool,
    allowIntervention: bool,
    surface: Surface<W>,
    watch: Watch<W>)

  // ---------------------------------------------------------------- the state of a run

  /** `epoch` counts the periods of human control that had passed when the text was read. */
  datatype Reading = Reading(text: string, epoch: nat)

  datatype Lease = Lease(version: nat, automation: bool)

  /**
  An action handed to the surface, or a text read from it: what it was bound to, the texts and the lease held
  then, and the world it happened in.
  */
  datatype Deed<+W> = Deed(id: Id, body: StepBody, target: Option<string>, texts: Texts, lease: Lease, world: W)

  /**
  `outputs`, `uses` and `lease` are the program's state. The rest is history: `stale` is set when a
  condition is judged while some output predates the last human control, `marked` when the job's watch
  sees what it looks out for; `lied` names the steps of which an attempt was repeated although it had an
  effect; `dispatched` and `extractions` record what was done to the surface; `effects`, `entries` and `starts` count.
  */
  datatype Run<+W> = Run(
    world: W,
    lease: Lease,
    outputs: map<string, Reading>,
    uses: map<Id, nat>,
    epoch: nat,
    stale: bool,
    marked: bool,
    lied: set<Id>,
    effects: seq<Id>,
    dispatched: seq<Deed<W>>,
    extractions: seq<Deed<W>>,
    entries: nat,
    starts: seq<Id>)

  function TextsOf(outputs: map<string, Reading>): Texts {
    map name | name in outputs :: outputs[name].text
  }

  predicate AllFrom(outputs: map<string, Reading>, epoch: nat) {
    forall name <- outputs :: outputs[name].epoch == epoch
  }

  function Uses(uses: map<Id, nat>, id: Id): nat {
    if id in uses then uses[id] else 0
  }

  /** Exceptions that end a run without a result. */
  datatype Crash = LeaseConflict | LeaseExpired | MissingReference | NestedRecovery

  datatype Reply<+T> = Value(value: T) | Raised(error: SurfaceError) | Crashed(crash: Crash)

  datatype Out<+W, +T> = Out(reply: Reply<T>, run: Run<W>) {
    predicate IsFailure() {
      !reply.Value?
    }

    function PropagateFailure<U>(): Out<W, U>
      requires !reply.Value?
    {
      Out(if reply.Raised? then Raised(reply.error) else Crashed(reply.crash), run)
    }

    function Extract(): (T, Run<W>)
      requires reply.Value?
    {
      (reply.value, run)
    }
  }

  function Reported<T>(answer: Answer<T>): Reply<T> {
    match answer
    case Says(said) => Value(said)
    case Fails(failure) => Raised(failure)
  }

  /** Asking the surface something changes the world and nothing the program keeps. */
  ghost predicate Quiet<W>(a: Run<W>, b: Run<W>) {
    && b == a.(world := b.world, stale := b.stale, marked := b.marked)
    && (a.stale ==> b.stale) && (a.marked ==> b.marked)
    && (AllFrom(a.outputs, a.epoch) ==> b.stale == a.stale)
  }

  function Consult<W>(run: Run<W>, world: W): Run<W> {
    run.(world := world, stale := run.stale || !AllFrom(run.outputs, run.epoch))
  }

  function Evaluate<W>(job: Job<W>, c: Condition, run: Run<W>): (out: Out<W, bool>)
    ensures Quiet(run, out.run) && !out.reply.Crashed?
  {
    var (answer, world) := job.surface.evaluate(run.world, c, TextsOf(run.outputs));
    Out(Reported(answer), Consult(run, world))
  }

  function Marked<W>(run: Run<W>, seen: bool): Run<W> {
    run.(marked := run.marked || seen)
  }

  /** Asks whether a referenced branch shows. */
  function Ask<W>(job: Job<W>, kind: Branching, ref: Id, c: Condition, run: Run<W>): (out: Out<W, bool>)
    ensures Quiet(run, out.run) && !out.reply.Crashed?
  {
    var asked := Evaluate(job, c, run);
    Out(asked.reply, Marked(asked.run, job.watch.branch(kind, ref, run.world, asked.reply, asked.run.world)))
  }

  function WaitUntil<W>(job: Job<W>, c: Condition, run: Run<W>): (out: Out<W, bool>)
    ensures Quiet(run, out.run) && !out.reply.Crashed?
  {
    var (answer, world) := job.surface.waitUntil(run.world, c, TextsOf(run.outputs));
    Out(Reported(answer), Consult(run, world))
  }

  function Observe<W>(job: Job<W>, run: Run<W>): (out: Out<W, Observation>)
    ensures Quiet(run, out.run) && !out.reply.Crashed?
  {
    var (answer, world) := job.surface.observe(run.world);
    Out(Reported(answer), run.(world := world))
  }

  function CaptureFrame<W>(job: Job<W>, run: Run<W>): (out: Out<W, ()>)
    ensures Quiet(run, out.run) && !out.reply.Crashed?
  {
    var (answer, world) := job.surface.captureFrame(run.world);
    Out(Reported(answer), run.(world := world))
  }

  function Resolve<W>(job: Job<W>, target: Option<Locator>, run: Run<W>): (out: Out<W, Option<string>>)
    ensures Quiet(run, out.run) && !out.reply.Crashed?
  {
    match target
    case None => Out(Value(None), run)
    case Some(locator) =>
      var (answer, world) := job.surface.resolve(run.world, locator);
      Out(match answer case Says(handle) => Value(Some(handle)) case Fails(failure) => Raised(failure),
          run.(world := world))
  }

  function Judge<W>(job: Job<W>, body: StepBody, seen: Observation, target: Option<string>, run: Run<W>)
    : (out: Out<W, Decision>)
    ensures Quiet(run, out.run) && out.run.world == run.world && !out.reply.Crashed?
  {
    var answer := job.surface.policy(run.world, body, seen, target);
    Out(Reported(answer), Marked(run, job.watch.verdict(run.world, body, seen, target, answer)))
  }

  // ---------------------------------------------------------------- the lease

  function AssertCanAct<W>(job: Job<W>, run: Run<W>, version: nat): (out: Out<W, ()>)
    ensures out.run == run && !out.reply.Raised?
  {
    if run.lease != Lease(version, true) then Out(Crashed(LeaseConflict), run)
    else if job.surface.leaseExpired(run.world) then Out(Crashed(LeaseExpired), run)
    else Out(Value(()), run)
  }

  /** A lease is kept, or renewed and then perhaps handed over; once it is gone it stays so. */
  predicate Onward(a: Lease, b: Lease) {
    b == a || (a.automation && a.version < b.version)
  }

  function Heartbeat<W>(job: Job<W>, run: Run<W>, version: nat): (out: Out<W, nat>)
    ensures out.run == run.(lease := out.run.lease) && Onward(run.lease, out.run.lease) && !out.reply.Raised?
    ensures out.reply.Value? ==> out.run.lease == Lease(out.reply.value, true)
  {
    var (_, run) :- AssertCanAct(job, run, version);
    Out(Value(version + 1), run.(lease := Lease(version + 1, true)))
  }

  // ---------------------------------------------------------------- results

  datatype Result =
    | Success(outputs: map<string, Reading>)
    | BusinessOutcome(code: Id)
    | Failure(failureCode: string, step: Option<Id>)
    | Intervention(reason: string, at: Id, retryStep: bool, retryAttempt: nat)

  /** `Recover` ends the step by running a recovery, which itself never raises a surface error. */
  datatype StepEnd = Done | Finished(result: Result) | Recover(id: Id)

  function Fail(code: string, step: Step): StepEnd {
    Finished(Failure(code, Some(step.id)))
  }

  function Plain(code: string): SurfaceError {
    SurfaceError(code, false, false, false)
  }

  // ---------------------------------------------------------------- branches

  function Detectors(branches: seq<Branch>): map<Id, Condition> {
    if branches == [] then map[]
    else Detectors(branches[..|branches| - 1])[branches[|branches| - 1].code := branches[|branches| - 1].detect]
  }

  function Triggers(recoveries: seq<Recovery>): map<Id, Condition> {
    if recoveries == [] then map[] else
    var last := recoveries[|recoveries| - 1];
    Triggers(recoveries[..|recoveries| - 1])[last.id := last.trigger]
  }

  function FindRecovery(recoveries: seq<Recovery>, id: Id): (found: Option<Recovery>)
    ensures found.Some? ==> found.value in recoveries && found.value.id == id
  {
    if recoveries == [] then None
    else if recoveries[|recoveries| - 1].id == id then Some(recoveries[|recoveries| - 1])
    else FindRecovery(recoveries[..|recoveries| - 1], id)
  }

  function AllEvaluate<W>(job: Job<W>, conditions: seq<Condition>, run: Run<W>): (out: Out<W, bool>)
    ensures Quiet(run, out.run) && !out.reply.Crashed?
  {
    if conditions == [] then Out(Value(true), run) else
    var (holds, run) :- Evaluate(job, conditions[0], run);
    if holds then AllEvaluate(job, conditions[1..], run) else Out(Value(false), run)
  }

  function AllAwaited<W>(job: Job<W>, conditions: seq<Condition>, run: Run<W>): (out: Out<W, bool>)
    ensures Quiet(run, out.run) && !out.reply.Crashed?
  {
    if conditions == [] then Out(Value(true), run) else
    var (holds, run) :- WaitUntil(job, conditions[0], run);
    if holds then AllAwaited(job, conditions[1..], run) else Out(Value(false), run)
  }

  /** Conditions that name the selected record; a surface error while waiting counts as not verified. */
  function IdentityVerified<W>(job: Job<W>, conditions: seq<Condition>, run: Run<W>): (out: Out<W, bool>)
    ensures Quiet(run, out.run) && out.reply.Value?
  {
    if conditions == [] then Out(Value(true), run)
    else if !ContainsIdentity(conditions[0]) then IdentityVerified(job, conditions[1..], run)
    else
      var waited := WaitUntil(job, conditions[0], run);
      if waited.reply == Value(true) then IdentityVerified(job, conditions[1..], waited.run)
      else Out(Value(false), waited.run)
  }

  function Matching<W>(job: Job<W>, kind: Branching, refs: seq<Id>, indexed: map<Id, Condition>, run: Run<W>)
    : (out: Out<W, seq<Id>>)
    ensures Quiet(run, out.run)
    ensures out.reply.Value? ==> forall id <- out.reply.value :: id in refs && id in indexed
    ensures (forall id <- refs :: id in indexed) ==> !out.reply.Crashed?
  {
    if refs == [] then Out(Value([]), run)
    else if refs[0] !in indexed then Out(Crashed(MissingReference), run)
    else
      var (hit, run) :- Ask(job, kind, refs[0], indexed[refs[0]], run);
      var (rest, run) :- Matching(job, kind, refs[1..], indexed, run);
      Out(Value(if hit then [refs[0]] + rest else rest), run)
  }

  /** At most one referenced branch may be visible; two are an error, not a choice. */
  function Detect<W>(job: Job<W>, kind: Branching, refs: seq<Id>, indexed: map<Id, Condition>, run: Run<W>)
    : (out: Out<W, Option<Id>>)
    ensures Quiet(run, out.run)
    ensures out.reply.Value? && out.reply.value.Some? ==>
              out.reply.value.value in refs && out.reply.value.value in indexed
    ensures (forall id <- refs :: id in indexed) ==> !out.reply.Crashed?
  {
    var (hits, run) :- Matching(job, kind, refs, indexed, run);
    if |hits| > 1 then Out(Raised(Plain("branch_ambiguous")), run)
    else Out(Value(if hits == [] then None else Some(hits[0])), run)
  }

  /** Every branch a step refers to is declared; a missing one would be a lookup error. */
  ghost predicate Known(a: Artifact, step: Step) {
    && (forall id <- step.outcomeRefs :: id in Detectors(a.outcomes))
    && (forall id <- step.failureRefs :: id in Detectors(a.failures))
    && (forall id <- step.recoveryRefs :: id in Triggers(a.recoveries) && FindRecovery(a.recoveries, id).Some?)
  }

  ghost predicate AllKnown(a: Artifact) {
    && (forall step <- a.steps :: Known(a, step))
    && (forall r <- a.recoveries :: forall step <- r.steps :: Known(a, step))
    && (forall r <- a.recoveries :: r.resumeAt in StepIds(a.steps))
  }

  /** No exception, or only that the lease ran out. */
  predicate Orderly<T>(reply: Reply<T>) {
    reply.Crashed? ==> reply.crash.LeaseExpired?
  }

  ghost predicate Recoverable<W>(job: Job<W>, step: Step, uses: map<Id, nat>, id: Id) {
    && id in step.recoveryRefs
    && (var found := FindRecovery(job.artifact.recoveries, id);
        found.Some? ==> Uses(uses, id) < found.value.maxUses)
  }

  /** A triggered recovery ends the step, or fails it when its uses are spent. */
  function SelectRecovery<W>(job: Job<W>, step: Step, run: Run<W>): (out: Out<W, Option<StepEnd>>)
    ensures Quiet(run, out.run)
    ensures out.reply.Value? && out.reply.value.Some? ==>
              var end := out.reply.value.value;
              && !end.Done?
              && (end.Finished? ==> end.result.Failure?)
              && (end.Recover? ==> Recoverable(job, step, run.uses, end.id))
    ensures Known(job.artifact, step) ==> !out.reply.Crashed?
  {
    var (hit, run) :- Detect(job, Recoveries, step.recoveryRefs, Triggers(job.artifact.recoveries), run);
    match hit
    case None => Out(Value(None), run)
    case Some(id) =>
      var found := FindRecovery(job.artifact.recoveries, id);
      if found.Some? && Uses(run.uses, id) >= found.value.maxUses
      then Out(Value(Some(Fail("recovery_exhausted", step))), run)
      else Out(Value(Some(Recover(id))), run)
  }

  /** Recoveries are looked for in main steps only. */
  function MaybeRecover<W>(job: Job<W>, step: Step, run: Run<W>, allowed: bool): (out: Out<W, Option<StepEnd>>)
    ensures Quiet(run, out.run)
    ensures out.reply.Value? && out.reply.value.Some? ==>
              var end := out.reply.value.value;
              && allowed && !end.Done?
              && (end.Finished? ==> end.result.Failure?)
              && (end.Recover? ==> Recoverable(job, step, run.uses, end.id))
    ensures out.reply.Raised? ==> allowed
    ensures Known(job.artifact, step) ==> !out.reply.Crashed?
  {
    if allowed then SelectRecovery(job, step, run) else Out(Value(None), run)
  }

  // ---------------------------------------------------------------- pausing

  /** Like `Quiet`, but the lease may have been handed over. */
  ghost predicate Handed<W>(a: Run<W>, b: Run<W>) {
    Quiet(a, b.(lease := a.lease)) && Onward(a.lease, b.lease)
  }

  function Intervene<W>(job: Job<W>, step: Step, code: string, run: Run<W>, version: nat, retryStep: bool, attempt: nat)
    : (out: Out<W, StepEnd>)
    ensures Handed(run, out.run)
    ensures out.reply.Value? ==> out.reply.value.Finished?
    ensures out.reply.Value? && out.reply.value.result.Intervention? ==>
              && out.reply.value.result.retryStep == retryStep && out.reply.value.result.retryAttempt == attempt
              && !out.run.lease.automation
    ensures out.reply.Value? && !out.reply.value.result.Intervention? ==> out.reply.value.result.Failure?
    ensures out.reply.Raised? ==> out.run.lease == run.lease
    ensures run.lease == Lease(version, true) ==> Orderly(out.reply)
  {
    if !job.allowIntervention then Out(Value(Fail(code, step)), run) else
    var (_, run) :- CaptureFrame(job, run);
    var (_, run) :- AssertCanAct(job, run, version);
    Out(Value(Finished(Intervention(code, step.id, retryStep, attempt))), run.(lease := Lease(version + 1, false)))
  }

  predicate Eligible(code: string, dispatched: bool) {
    || code in {"target_absent", "target_ambiguous", "action_timeout", "action_failed"}
    || (code == "postcondition_mismatch" && dispatched)
  }

  function SurfaceFailure<W>(job: Job<W>, step: Step, error: SurfaceError, run: Run<W>, version: nat,
                             dispatched: bool, attempt: nat, allowIntervention: bool): (out: Out<W, StepEnd>)
    ensures Handed(run, out.run)
    ensures out.reply.Value? ==> out.reply.value.Finished?
    ensures out.reply.Value? && out.reply.value.result.Intervention? ==>
              && out.reply.value.result.retryStep == !dispatched && out.reply.value.result.retryAttempt == attempt
              && !out.run.lease.automation
    ensures out.reply.Value? && !out.reply.value.result.Intervention? ==> out.reply.value.result.Failure?
    ensures out.reply.Raised? ==> out.run.lease == run.lease && allowIntervention
    ensures run.lease == Lease(version, true) ==> Orderly(out.reply)
    ensures !allowIntervention ==> out.run == run && out.reply.Value? && out.reply.value.result.Failure?
  {
    if !allowIntervention || !job.allowIntervention
      || !(Eligible(error.code, dispatched) || error.interventionRecommended)
    then Out(Value(Fail(error.code, step)), run)
    else
      var seen := Observe(job, run);
      if seen.reply.Raised? then Out(Value(Fail(error.code, step)), seen.run) else
      var decided := Judge(job, step.body, seen.reply.value, None, seen.run);
      if decided.reply.Raised? then Out(Value(Fail(error.code, step)), decided.run)
      else if decided.reply.value.Deny? then Out(Value(Fail("policy_blocked", step)), decided.run)
      else Intervene(job, step, error.code, decided.run, version, !dispatched, attempt)
  }

  // ---------------------------------------------------------------- one attempt at a step

  datatype Prepared = Stop(end: StepEnd) | Go(target: Option<string>)

  function Prepare<W>(job: Job<W>, step: Step, run: Run<W>, version: nat, allowIntervention: bool)
    : (out: Out<W, Prepared>)
    ensures Handed(run, out.run)
    ensures out.reply.Value? && out.reply.value.Stop? ==> out.reply.value.end.Finished?
    ensures out.reply.Value? && out.reply.value.Stop? && out.reply.value.end.result.Intervention? ==>
              && !out.reply.value.end.result.retryStep && out.reply.value.end.result.retryAttempt == 1
              && !out.run.lease.automation
    ensures out.reply.Value? && out.reply.value.Stop? && !out.reply.value.end.result.Intervention? ==>
              out.reply.value.end.result.Failure?
    ensures out.reply.Raised? || (out.reply.Value? && out.reply.value.Go?) ==> out.run.lease == run.lease
    ensures run.lease == Lease(version, true) ==> Orderly(out.reply)
  {
    var (_, run) :- AssertCanAct(job, run, version);
    var (ready, run) :- AllEvaluate(job, step.body.preconditions, run);
    if !ready then Out(Value(Stop(Fail("step_precondition_mismatch", step))), run) else
    var (seen, run) :- Observe(job, run);
    var (target, run) :- Resolve(job, step.body.target, run);
    var (decision, run) :- Judge(job, step.body, seen, target, run);
    match decision
    case Deny => Out(Value(Stop(Fail("policy_blocked", step))), run)
    case RequireApproval(reason) =>
      if !allowIntervention then Out(Value(Stop(Fail("recovery_requires_human", step))), run) else
      var (end, run) :- Intervene(job, step, reason, run, version, false, 1);
      Out(Value(Stop(end)), run)
    case Allow => Out(Value(Go(target)), run)
  }

  /** What performing the action may change: an output, or the record of what was dispatched. */
  ghost predicate Performed<W>(step: Step, a: Run<W>, b: Run<W>) {
    && b == a.(world := b.world, stale := b.stale, marked := b.marked, outputs := b.outputs,
               effects := b.effects, dispatched := b.dispatched, extractions := b.extractions)
    && (a.stale ==> b.stale) && (a.marked ==> b.marked)
    && (AllFrom(a.outputs, a.epoch) ==> b.stale == a.stale && AllFrom(b.outputs, b.epoch))
    && (b.effects == a.effects || (b.effects == a.effects + [step.id] && step.body.action.Operate?))
  }

  function DeedOf<W>(step: Step, target: Option<string>, run: Run<W>): Deed<W> {
    Deed(step.id, step.body, target, TextsOf(run.outputs), run.lease, run.world)
  }

  function Perform<W>(job: Job<W>, step: Step, target: Option<string>, run: Run<W>): (out: Out<W, ()>)
    ensures Performed(step, run, out.run) && !out.reply.Crashed?
  {
    match step.body.action
    case WaitFor(condition) =>
      var (holds, run) :- WaitUntil(job, condition, run);
      Out(if holds then Value(()) else Raised(Plain("action_condition_mismatch")), run)
    case Assert(condition) =>
      var (holds, run) :- Evaluate(job, condition, run);
      Out(if holds then Value(()) else Raised(Plain("action_condition_mismatch")), run)
    case CheckpointReached(_) =>
      var (holds, run) :- Evaluate(job, job.artifact.checkpoint, run);
      Out(if holds then Value(()) else Raised(Plain("action_condition_mismatch")), run)
    case Extract(output, _) =>
      if target.None? then Out(Raised(Plain("target_absent")), run) else
      var (answer, world) := job.surface.extract(run.world, target.value, step.body.action);
      (match answer
       case Fails(failure) => Out(Raised(failure), run.(world := world))
       case Says(text) =>
         Out(Value(()), run.(world := world, outputs := run.outputs[output := Reading(text, run.epoch)],
                             extractions := run.extractions + [DeedOf(step, target, run)])))
    case Operate(_, _) =>
      var done := job.surface.execute(run.world, step.body.action, target);
      var run := run.(world := done.world,
                      dispatched := run.dispatched + [DeedOf(step, target, run)],
                      effects := if done.effect then run.effects + [step.id] else run.effects);
      (match done.answer
       case Fails(failure) => Out(Raised(failure), run)
       case Says(NotCompleted(code)) => Out(Raised(Plain(if code.Some? then code.value else "action_failed")), run)
       case Says(Completed) => Out(Value(()), run))
  }

  /** What every way of ending an attempt after its action guarantees. */
  ghost predicate Ending<W>(job: Job<W>, step: Step, run: Run<W>, out: Out<W, StepEnd>, attempt: nat,
                            allowRecovery: bool, allowIntervention: bool)
  {
    && Handed(run, out.run)
    && (out.reply.Raised? ==> out.run.lease == run.lease)
    && (out.reply.Value? ==>
          match out.reply.value
          case Done => out.run.lease == run.lease
          case Recover(id) => out.run.lease == run.lease && allowRecovery && Recoverable(job, step, run.uses, id)
          case Finished(Success(_)) => false
          case Finished(Intervention(_, _, retryStep, retryAttempt)) =>
            && allowIntervention && retryStep == !step.body.action.Operate? && retryAttempt == attempt
            && !out.run.lease.automation
          case Finished(_) => true)
  }

  /** Questions asked before an attempt ends do not change what its end guarantees. */
  lemma EndingAfter<W>(job: Job<W>, step: Step, run: Run<W>, asked: Run<W>, out: Out<W, StepEnd>, attempt: nat,
                       allowRecovery: bool, allowIntervention: bool)
    requires Quiet(run, asked) && Ending(job, step, asked, out, attempt, allowRecovery, allowIntervention)
    ensures Ending(job, step, run, out, attempt, allowRecovery, allowIntervention)
  {
  }

  function GiveIn<W>(job: Job<W>, step: Step, run: Run<W>, version: nat, attempt: nat, allowRecovery: bool,
                     allowIntervention: bool)
    : (out: Out<W, StepEnd>)
    ensures Ending(job, step, run, out, attempt, allowRecovery, allowIntervention)
    ensures Known(job.artifact, step) && run.lease == Lease(version, true) ==> Orderly(out.reply)
  {
    var (failure, run) :- Detect(job, Failures, step.failureRefs, Detectors(job.artifact.failures), run);
    if failure.Some? then Out(Value(Fail(failure.value, step)), run) else
    SurfaceFailure(job, step, Plain("postcondition_mismatch"), run, version, step.body.action.Operate?, attempt,
                   allowIntervention)
  }

  /** A postcondition did not come true and no outcome explains it. */
  function Unconfirmed<W>(job: Job<W>, step: Step, run: Run<W>, version: nat,
                          attempt: nat, allowRecovery: bool, allowIntervention: bool): (out: Out<W, StepEnd>)
    ensures Ending(job, step, run, out, attempt, allowRecovery, allowIntervention)
    ensures Known(job.artifact, step) && run.lease == Lease(version, true) ==> Orderly(out.reply)
  {
    var (recovery, asked) :- MaybeRecover(job, step, run, allowRecovery);
    if recovery.Some? then Out(Value(recovery.value), asked) else
    var out := GiveIn(job, step, asked, version, attempt, allowRecovery, allowIntervention);
    EndingAfter(job, step, run, asked, out, attempt, allowRecovery, allowIntervention);
    out
  }

  /** The postconditions that are not identity checks, in order, looking for branches around each. */
  function Confirm<W>(job: Job<W>, step: Step, conditions: seq<Condition>, run: Run<W>, version: nat,
                      attempt: nat, allowRecovery: bool, allowIntervention: bool): (out: Out<W, StepEnd>)
    ensures Ending(job, step, run, out, attempt, allowRecovery, allowIntervention)
    ensures Known(job.artifact, step) && run.lease == Lease(version, true) ==> Orderly(out.reply)
    decreases |conditions|
  {
    if conditions == [] then Out(Value(Done), run)
    else if ContainsIdentity(conditions[0]) then
      Confirm(job, step, conditions[1..], run, version, attempt, allowRecovery, allowIntervention)
    else
      var (holds, run) :- WaitUntil(job, conditions[0], run);
      var (outcome, run) :- Detect(job, Outcomes, step.outcomeRefs, Detectors(job.artifact.outcomes), run);
      if outcome.Some? then Out(Value(Finished(BusinessOutcome(outcome.value))), run)
      else if holds then
        Confirm(job, step, conditions[1..], run, version, attempt, allowRecovery, allowIntervention)
      else
        Unconfirmed(job, step, run, version, attempt, allowRecovery, allowIntervention)
  }

  /** Branches that may be visible before any postcondition is awaited: outcome, failure, recovery. */
  function EarlyBranch<W>(job: Job<W>, step: Step, run: Run<W>, allowRecovery: bool): (out: Out<W, StepEnd>)
    ensures Quiet(run, out.run)
    ensures out.reply.Value? ==>
              match out.reply.value
              case Done => true
              case Recover(id) => allowRecovery && Recoverable(job, step, run.uses, id)
              case Finished(r) => r.BusinessOutcome? || r.Failure?
    ensures Known(job.artifact, step) ==> !out.reply.Crashed?
  {
    var (outcome, run) :- Detect(job, Outcomes, step.outcomeRefs, Detectors(job.artifact.outcomes), run);
    if outcome.Some? then Out(Value(Finished(BusinessOutcome(outcome.value))), run) else
    var (failure, run) :- Detect(job, Failures, step.failureRefs, Detectors(job.artifact.failures), run);
    if failure.Some? then Out(Value(Fail(failure.value, step)), run) else
    var (recovery, run) :- MaybeRecover(job, step, run, allowRecovery);
    Out(Value(if recovery.Some? then recovery.value else Done), run)
  }

  /** The checks that follow the action: the record's identity first, so no branch can excuse a wrong record. */
  function Verify<W>(job: Job<W>, step: Step, run: Run<W>, version: nat,
                     attempt: nat, allowRecovery: bool, allowIntervention: bool): (out: Out<W, StepEnd>)
    ensures Ending(job, step, run, out, attempt, allowRecovery, allowIntervention)
    ensures Known(job.artifact, step) && run.lease == Lease(version, true) ==> Orderly(out.reply)
  {
    var identity := IdentityVerified(job, step.body.postconditions, run);
    if !identity.reply.value then Out(Value(Fail("postcondition_mismatch", step)), identity.run) else
    var (early, run) :- EarlyBranch(job, step, identity.run, allowRecovery);
    if !early.Done? then Out(Value(early), run) else
    Confirm(job, step, step.body.postconditions, run, version, attempt, allowRecovery, allowIntervention)
  }

  // ---------------------------------------------------------------- a step with its retries

  /** An attempt together with whether it got as far as handing its action to the surface. */
  datatype Attempt<+W> = Attempt(out: Out<W, StepEnd>, dispatched: bool)

  /** The step operates the surface and lists errors that may be answered by doing it again. */
  predicate Repeatable(step: Step) {
    step.body.action.Operate? && step.body.retry.retryOn != []
  }

  /** What a whole step may change, however many attempts it took. */
  ghost predicate Stepped<W>(step: Step, a: Run<W>, b: Run<W>) {
    && b == a.(world := b.world, lease := b.lease, stale := b.stale, marked := b.marked, lied := b.lied,
               outputs := b.outputs, effects := b.effects, dispatched := b.dispatched, extractions := b.extractions)
    && (a.stale ==> b.stale) && (a.marked ==> b.marked)
    && Onward(a.lease, b.lease) && a.lied <= b.lied <= a.lied + (if Repeatable(step) then {step.id} else {})
    && (AllFrom(a.outputs, a.epoch) ==> b.stale == a.stale && AllFrom(b.outputs, b.epoch))
    && (forall id | id != step.id :: multiset(b.effects)[id] == multiset(a.effects)[id])
    && multiset(b.effects)[step.id] >= multiset(a.effects)[step.id]
    && (!step.body.action.Operate? ==> multiset(b.effects)[step.id] == multiset(a.effects)[step.id])
    && (step.id !in b.lied ==> multiset(b.effects)[step.id] <= multiset(a.effects)[step.id] + 1)
  }

  ghost predicate StepEnding<W>(job: Job<W>, step: Step, run: Run<W>, out: Out<W, StepEnd>, attempt: nat,
                                allowRecovery: bool, allowIntervention: bool)
  {
    && Stepped(step, run, out.run)
    && (out.reply.Raised? ==> out.run.lease == run.lease)
    && (out.reply.Value? ==>
          match out.reply.value
          case Done => out.run.lease == run.lease
          case Recover(id) => out.run.lease == run.lease && allowRecovery && Recoverable(job, step, run.uses, id)
          case Finished(Success(_)) => false
          case Finished(Intervention(_, _, retryStep, retryAttempt)) =>
            && allowIntervention && !out.run.lease.automation
            && (retryAttempt == 1 || attempt <= retryAttempt <= step.body.retry.maxAttempts || retryAttempt == attempt)
            && (retryStep && step.id !in out.run.lied ==> multiset(out.run.effects) == multiset(run.effects))
          case Finished(_) => true)
  }

  lemma PerformedEnds<W>(job: Job<W>, step: Step, run: Run<W>, prepared: Run<W>, performed: Run<W>,
                         out: Out<W, StepEnd>,
                         attempt: nat, allowRecovery: bool, allowIntervention: bool)
    requires Handed(run, prepared) && prepared.lease == run.lease && Performed(step, prepared, performed)
    requires (out.reply.Raised? && out.run == performed)
             || Ending(job, step, performed, out, attempt, allowRecovery, allowIntervention)
    ensures StepEnding(job, step, run, out, attempt, allowRecovery, allowIntervention) && out.run.lied == run.lied
    ensures out.run.effects != run.effects ==> step.body.action.Operate?
  {
    assert out.run.effects == performed.effects;
    assert performed.effects == run.effects || performed.effects == run.effects + [step.id];
  }

  function Try<W>(job: Job<W>, step: Step, run: Run<W>, version: nat,
                  attempt: nat, allowRecovery: bool, allowIntervention: bool): (tried: Attempt<W>)
    ensures StepEnding(job, step, run, tried.out, attempt, allowRecovery, allowIntervention)
    ensures Known(job.artifact, step) && run.lease == Lease(version, true) ==> Orderly(tried.out.reply)
    ensures tried.out.run.lied == run.lied
    ensures tried.out.run.effects != run.effects ==> step.body.action.Operate?
    ensures tried.out.reply.Raised? && !tried.dispatched ==> tried.out.run.effects == run.effects
  {
    var prepared := Prepare(job, step, run, version, allowIntervention);
    match prepared.reply
    case Raised(error) => Attempt(Out(Raised(error), prepared.run), false)
    case Crashed(crash) => Attempt(Out(Crashed(crash), prepared.run), false)
    case Value(Stop(end)) => Attempt(Out(Value(end), prepared.run), false)
    case Value(Go(target)) =>
      var performed := Perform(job, step, target, prepared.run);
      var out :=
        if performed.reply.Raised? then Out(Raised(performed.reply.error), performed.run)
        else Verify(job, step, performed.run, version, attempt, allowRecovery, allowIntervention);
      PerformedEnds(job, step, run, prepared.run, performed.run, out, attempt, allowRecovery, allowIntervention);
      Attempt(out, step.body.action.Operate?)
  }

  predicate Retryable(step: Step, error: SurfaceError, attempt: nat) {
    error.recoverable && error.effectAbsent && error.code in step.body.retry.retryOn
      && attempt < step.body.retry.maxAttempts
  }

  /** How an attempt that is not repeated may end. */
  ghost predicate GivenUp<W>(job: Job<W>, step: Step, run: Run<W>, out: Out<W, StepEnd>, dispatched: bool,
                             attempt: nat, allowRecovery: bool, allowIntervention: bool)
  {
    && Handed(run, out.run)
    && (out.reply.Raised? ==> out.run.lease == run.lease && (allowRecovery || allowIntervention))
    && (out.reply.Value? ==>
          match out.reply.value
          case Done => false
          case Recover(id) => out.run.lease == run.lease && allowRecovery && Recoverable(job, step, run.uses, id)
          case Finished(Success(_)) => false
          case Finished(Intervention(_, _, retryStep, retryAttempt)) =>
            allowIntervention && retryAttempt == attempt && retryStep == !dispatched && !out.run.lease.automation
          case Finished(_) => true)
  }

  lemma GivenUpAfter<W>(job: Job<W>, step: Step, run: Run<W>, asked: Run<W>, out: Out<W, StepEnd>, dispatched: bool,
                        attempt: nat, allowRecovery: bool, allowIntervention: bool)
    requires Quiet(run, asked) && GivenUp(job, step, asked, out, dispatched, attempt, allowRecovery, allowIntervention)
    ensures GivenUp(job, step, run, out, dispatched, attempt, allowRecovery, allowIntervention)
  {
  }

  /** An error that is not retried: a recovery may still apply, else the step fails or pauses. */
  function GiveUp<W>(job: Job<W>, step: Step, error: SurfaceError, run: Run<W>, version: nat, dispatched: bool,
                     attempt: nat, allowRecovery: bool, allowIntervention: bool): (out: Out<W, StepEnd>)
    ensures GivenUp(job, step, run, out, dispatched, attempt, allowRecovery, allowIntervention)
    ensures Known(job.artifact, step) && run.lease == Lease(version, true) ==> Orderly(out.reply)
  {
    var (recovery, asked) :- MaybeRecover(job, step, run, allowRecovery);
    if recovery.Some? then Out(Value(recovery.value), asked) else
    var out := SurfaceFailure(job, step, error, asked, version, dispatched, attempt, allowIntervention);
    GivenUpAfter(job, step, run, asked, out, dispatched, attempt, allowRecovery, allowIntervention);
    out
  }

  /** The state a repeated attempt starts from: repeating an attempt that had an effect is remembered. */
  function Repeating<W>(step: Step, run: Run<W>, after: Run<W>): Run<W> {
    after.(lied := if after.effects != run.effects then after.lied + {step.id} else after.lied)
  }

  lemma RepeatedEnds<W>(job: Job<W>, step: Step, run: Run<W>, after: Run<W>, out: Out<W, StepEnd>, attempt: nat,
                        allowRecovery: bool, allowIntervention: bool)
    requires Stepped(step, run, after) && after.lease == run.lease && attempt < step.body.retry.maxAttempts
    requires after.effects != run.effects ==> Repeatable(step)
    requires StepEnding(job, step, Repeating(step, run, after), out, attempt + 1, allowRecovery, allowIntervention)
    ensures StepEnding(job, step, run, out, attempt, allowRecovery, allowIntervention)
  {
  }

  lemma GivenUpEnds<W>(job: Job<W>, step: Step, run: Run<W>, after: Run<W>, out: Out<W, StepEnd>, dispatched: bool,
                       attempt: nat,
                       allowRecovery: bool, allowIntervention: bool)
    requires Stepped(step, run, after) && after.lease == run.lease && (!dispatched ==> after.effects == run.effects)
    requires GivenUp(job, step, after, out, dispatched, attempt, allowRecovery, allowIntervention)
    ensures StepEnding(job, step, run, out, attempt, allowRecovery, allowIntervention)
  {
  }

  function ExecuteStep<W>(job: Job<W>, step: Step, run: Run<W>, version: nat,
                          attempt: nat, allowRecovery: bool, allowIntervention: bool): (out: Out<W, StepEnd>)
    ensures StepEnding(job, step, run, out, attempt, allowRecovery, allowIntervention)
    ensures Known(job.artifact, step) && run.lease == Lease(version, true) ==> Orderly(out.reply)
    ensures !allowRecovery && !allowIntervention ==> !out.reply.Raised?
    decreases step.body.retry.maxAttempts - attempt
  {
    var tried := Try(job, step, run, version, attempt, allowRecovery, allowIntervention);
    if !tried.out.reply.Raised? then tried.out else
    var error, after := tried.out.reply.error, tried.out.run;
    if Retryable(step, error, attempt) then
      var out := ExecuteStep(job, step, Repeating(step, run, after), version, attempt + 1, allowRecovery,
                             allowIntervention);
      RepeatedEnds(job, step, run, after, out, attempt, allowRecovery, allowIntervention);
      out
    else
      var out := GiveUp(job, step, error, after, version, tried.dispatched, attempt, allowRecovery, allowIntervention);
      GivenUpEnds(job, step, run, after, out, tried.dispatched, attempt, allowRecovery, allowIntervention);
      out
  }

  /** One attempt decides whether the step has ended, is tried again, or is given up. */
  lemma StepAfterTry<W>(job: Job<W>, step: Step, run: Run<W>, version: nat,
                        attempt: nat, allowRecovery: bool, allowIntervention: bool)
    ensures
      var tried := Try(job, step, run, version, attempt, allowRecovery, allowIntervention);
      ExecuteStep(job, step, run, version, attempt, allowRecovery, allowIntervention) ==
        if !tried.out.reply.Raised? then tried.out
        else if Retryable(step, tried.out.reply.error, attempt)
        then ExecuteStep(job, step, Repeating(step, run, tried.out.run), version, attempt + 1, allowRecovery,
                         allowIntervention)
        else GiveUp(job, step, tried.out.reply.error, tried.out.run, version, tried.dispatched,
                    attempt, allowRecovery, allowIntervention)
  {
  }

  // ---------------------------------------------------------------- recoveries

  datatype RecoveryEnd = Restored(version: nat) | Abandoned(result: Result)

  /** What running the steps of a recovery may change. */
  ghost predicate Recovering<W>(steps: seq<Step>, a: Run<W>, b: Run<W>) {
    && b == a.(world := b.world, lease := b.lease, stale := b.stale, marked := b.marked, lied := b.lied,
               outputs := b.outputs, effects := b.effects, dispatched := b.dispatched, extractions := b.extractions)
    && (a.stale ==> b.stale) && (a.marked ==> b.marked) && a.lied <= b.lied && Onward(a.lease, b.lease)
    && (AllFrom(a.outputs, a.epoch) ==> b.stale == a.stale && AllFrom(b.outputs, b.epoch))
    && (forall id | id !in StepIds(steps) ::
          multiset(b.effects)[id] == multiset(a.effects)[id] && (id in b.lied ==> id in a.lied))
  }

  ghost predicate RecoveryEnding<W>(run: Run<W>, out: Out<W, RecoveryEnd>, version: nat) {
    && !out.reply.Raised?
    && (out.reply.Value? && out.reply.value.Restored? && run.lease == Lease(version, true) ==>
          out.run.lease == Lease(out.reply.value.version, true))
    && (out.reply.Value? && out.reply.value.Abandoned? ==>
          out.reply.value.result.Failure? || out.reply.value.result.BusinessOutcome?)
  }

  lemma RecoveringNext<W>(steps: seq<Step>, a: Run<W>, m: Run<W>, h: Run<W>, b: Run<W>)
    requires steps != []
    requires Stepped(steps[0], a, m) && h == m.(lease := h.lease) && Onward(m.lease, h.lease)
    requires Recovering(steps[1..], h, b)
    ensures Recovering(steps, a, b)
  {
    assert StepIds(steps) == [steps[0].id] + StepIds(steps[1..]);
  }

  lemma RecoveringOnce<W>(steps: seq<Step>, a: Run<W>, b: Run<W>)
    requires steps != [] && Stepped(steps[0], a, b)
    ensures Recovering(steps, a, b)
  {
    assert StepIds(steps)[0] == steps[0].id;
  }

  function RecoverFrom<W>(job: Job<W>, steps: seq<Step>, run: Run<W>, version: nat): (out: Out<W, RecoveryEnd>)
    ensures Recovering(steps, run, out.run) && RecoveryEnding(run, out, version)
    decreases |steps|
  {
    if steps == [] then Out(Value(Restored(version)), run) else
    var stepped := ExecuteStep(job, steps[0], run, version, 1, false, false);
    RecoveringOnce(steps, run, stepped.run);
    var (end, run') :- stepped;
    match end
    case Recover(_) => Out(Crashed(NestedRecovery), run')
    case Finished(result) => Out(Value(Abandoned(result)), run')
    case Done =>
      var beat := Heartbeat(job, run', version);
      RecoveringOnce(steps, run, beat.run);
      var (version', run'') :- beat;
      var out := RecoverFrom(job, steps[1..], run'', version');
      RecoveringNext(steps, run, run', run'', out.run);
      out
  }

  lemma RecoverNext<W>(job: Job<W>, steps: seq<Step>, run: Run<W>, version: nat)
    requires steps != []
    ensures
      var stepped := ExecuteStep(job, steps[0], run, version, 1, false, false);
      var beat := Heartbeat(job, stepped.run, version);
      RecoverFrom(job, steps, run, version) ==
        if stepped.reply.Crashed? then Out(Crashed(stepped.reply.crash), stepped.run)
        else if stepped.reply.value.Recover? then Out(Crashed(NestedRecovery), stepped.run)
        else if stepped.reply.value.Finished? then Out(Value(Abandoned(stepped.reply.value.result)), stepped.run)
        else if beat.reply.Crashed? then Out(Crashed(beat.reply.crash), beat.run)
        else RecoverFrom(job, steps[1..], beat.run, beat.reply.value)
  {
  }

  lemma {:induction false} RecoverOrderly<W>(job: Job<W>, steps: seq<Step>, run: Run<W>, version: nat)
    requires (forall step <- steps :: Known(job.artifact, step)) && run.lease == Lease(version, true)
    ensures Orderly(RecoverFrom(job, steps, run, version).reply)
    decreases |steps|
  {
    if steps != [] {
      var stepped := ExecuteStep(job, steps[0], run, version, 1, false, false);
      var beat := Heartbeat(job, stepped.run, version);
      if stepped.reply == Value(Done) && beat.reply.Value? {
        RecoverOrderly(job, steps[1..], beat.run, beat.reply.value);
      }
    }
  }

  function ExecuteRecovery<W>(job: Job<W>, recovery: Recovery, run: Run<W>, version: nat): (out: Out<W, RecoveryEnd>)
    ensures Recovering(recovery.steps, Started(run, recovery), out.run) && RecoveryEnding(run, out, version)
  {
    var (version, run) :- Heartbeat(job, Started(run, recovery), version);
    RecoverFrom(job, recovery.steps, run, version)
  }

  lemma RecoveryOrderly<W>(job: Job<W>, recovery: Recovery, run: Run<W>, version: nat)
    requires (forall step <- recovery.steps :: Known(job.artifact, step)) && run.lease == Lease(version, true)
    ensures Orderly(ExecuteRecovery(job, recovery, run, version).reply)
  {
    var beat := Heartbeat(job, Started(run, recovery), version);
    if beat.reply.Value? {
      RecoverOrderly(job, recovery.steps, beat.run, beat.reply.value);
    }
  }

  function Started<W>(run: Run<W>, recovery: Recovery): Run<W> {
    run.(uses := run.uses[recovery.id := Uses(run.uses, recovery.id) + 1], starts := run.starts + [recovery.id])
  }

  // ---------------------------------------------------------------- the main program

  datatype MainEnd = Advance | Leave(result: Result) | Jump(to: Id, version: nat)

  /** A main step either leaves the recovery counters alone or starts one recovery that still had a use left. */
  ghost predicate Spent<W>(job: Job<W>, step: Step, a: Run<W>, b: Run<W>, r: Recovery) {
    && r in job.artifact.recoveries && r.id in step.recoveryRefs
    && Uses(a.uses, r.id) < r.maxUses
    && b.uses == a.uses[r.id := Uses(a.uses, r.id) + 1]
    && b.starts == a.starts + [r.id]
  }

  /** What a main step may change; `others` are the identifiers of recovery steps. */
  ghost predicate Mained<W>(job: Job<W>, step: Step, a: Run<W>, b: Run<W>) {
    && b.epoch == a.epoch && b.entries == a.entries + 1
    && (a.stale ==> b.stale) && (a.marked ==> b.marked) && a.lied <= b.lied && Onward(a.lease, b.lease)
    && (AllFrom(a.outputs, a.epoch) ==> b.stale == a.stale && AllFrom(b.outputs, b.epoch))
    && (forall id | id !in StepIds(RecoverySteps(job.artifact.recoveries)) ::
          && (id in b.lied ==> id in a.lied || (id == step.id && Repeatable(step)))
          && (id != step.id || !step.body.action.Operate? ==> multiset(b.effects)[id] == multiset(a.effects)[id])
          && multiset(b.effects)[id] >= multiset(a.effects)[id]
          && (id !in b.lied ==> multiset(b.effects)[id] <= multiset(a.effects)[id] + 1))
    && ((b.uses == a.uses && b.starts == a.starts) || exists r :: Spent(job, step, a, b, r))
  }

  ghost predicate MainEnding<W>(job: Job<W>, step: Step, run: Run<W>, out: Out<W, MainEnd>, version: nat,
                                attempt: nat) {
    && Mained(job, step, run, out.run)
    && (out.reply.Value? ==>
          match out.reply.value
          case Advance => out.run.lease == run.lease && out.run.uses == run.uses && out.run.starts == run.starts
          case Jump(to, version') =>
            && (run.lease == Lease(version, true) ==> out.run.lease == Lease(version', true))
            && (exists r :: Spent(job, step, run, out.run, r) && r.resumeAt == to)
          case Leave(Success(_)) => false
          case Leave(Intervention(_, _, retryStep, retryAttempt)) =>
            && !out.run.lease.automation
            && (retryAttempt == 1 || attempt <= retryAttempt <= step.body.retry.maxAttempts || retryAttempt == attempt)
            && (retryStep && step.id !in out.run.lied ==> multiset(out.run.effects) == multiset(run.effects))
          case Leave(_) => true)
  }

  lemma RecoveryStepIds(recoveries: seq<Recovery>, r: Recovery, id: Id)
    requires r in recoveries && id in StepIds(r.steps)
    ensures id in StepIds(RecoverySteps(recoveries))
  {
    var all := RecoverySteps(recoveries);
    if recoveries[0] == r {
      var k :| 0 <= k < |r.steps| && r.steps[k].id == id;
      assert all[k] == r.steps[k];
      assert StepIds(all)[k] == id;
    } else {
      RecoveryStepIds(recoveries[1..], r, id);
      var k :| 0 <= k < |RecoverySteps(recoveries[1..])| && RecoverySteps(recoveries[1..])[k].id == id;
      assert all[|recoveries[0].steps| + k] == RecoverySteps(recoveries[1..])[k];
      assert StepIds(all)[|recoveries[0].steps| + k] == id;
    }
  }

  lemma MainedByStep<W>(job: Job<W>, step: Step, a: Run<W>, m: Run<W>)
    requires Stepped(step, a.(entries := a.entries + 1), m)
    ensures Mained(job, step, a, m)
  {
  }

  lemma MainedByRecovery<W>(job: Job<W>, step: Step, r: Recovery, a: Run<W>, m: Run<W>, b: Run<W>)
    requires Stepped(step, a.(entries := a.entries + 1), m)
    requires r in job.artifact.recoveries && r.id in step.recoveryRefs && Uses(m.uses, r.id) < r.maxUses
    requires Recovering(r.steps, Started(m, r), b)
    ensures Mained(job, step, a, b) && Spent(job, step, a, b, r)
  {
    assert Spent(job, step, a, b, r);
    forall id | id !in StepIds(RecoverySteps(job.artifact.recoveries))
      ensures multiset(b.effects)[id] == multiset(m.effects)[id] && (id in b.lied ==> id in m.lied)
    {
      if id in StepIds(r.steps) {
        RecoveryStepIds(job.artifact.recoveries, r, id);
      }
    }
  }

  /** How a main step ends, given how its attempts ended: a recovery that was selected is run now. */
  function FinishMain<W>(job: Job<W>, stepped: Out<W, StepEnd>, version: nat): Out<W, MainEnd> {
    var (end, run) :- stepped;
    match end
    case Done => Out(Value(Advance), run)
    case Finished(result) => Out(Value(Leave(result)), run)
    case Recover(id) =>
      var found := FindRecovery(job.artifact.recoveries, id);
      if found.None? then Out(Crashed(MissingReference), run) else
      Rejoin(found.value, ExecuteRecovery(job, found.value, run, version))
  }

  function Rejoin<W>(recovery: Recovery, recovered: Out<W, RecoveryEnd>): Out<W, MainEnd> {
    var (restored, run) :- recovered;
    match restored
    case Restored(version) => Out(Value(Jump(recovery.resumeAt, version)), run)
    case Abandoned(result) => Out(Value(Leave(result)), run)
  }

  lemma RejoinEnds<W>(job: Job<W>, step: Step, run: Run<W>, m: Run<W>, r: Recovery, recovered: Out<W, RecoveryEnd>,
                      version: nat, attempt: nat)
    requires Stepped(step, run.(entries := run.entries + 1), m) && m.lease == run.lease
    requires r in job.artifact.recoveries && r.id in step.recoveryRefs && Uses(m.uses, r.id) < r.maxUses
    requires Recovering(r.steps, Started(m, r), recovered.run) && RecoveryEnding(m, recovered, version)
    ensures MainEnding(job, step, run, Rejoin(r, recovered), version, attempt)
  {
    MainedByRecovery(job, step, r, run, m, recovered.run);
  }

  lemma FinishMainEnds<W>(job: Job<W>, step: Step, run: Run<W>, stepped: Out<W, StepEnd>, version: nat, attempt: nat)
    requires StepEnding(job, step, run.(entries := run.entries + 1), stepped, attempt, true, true)
    ensures MainEnding(job, step, run, FinishMain(job, stepped, version), version, attempt)
  {
    MainedByStep(job, step, run, stepped.run);
    if stepped.reply.Value? && stepped.reply.value.Recover? {
      var found := FindRecovery(job.artifact.recoveries, stepped.reply.value.id);
      if found.Some? {
        var recovered := ExecuteRecovery(job, found.value, stepped.run, version);
        RejoinEnds(job, step, run, stepped.run, found.value, recovered, version, attempt);
      }
    }
  }

  lemma FinishMainOrderly<W>(job: Job<W>, step: Step, run: Run<W>, stepped: Out<W, StepEnd>, version: nat, attempt: nat)
    requires StepEnding(job, step, run.(entries := run.entries + 1), stepped, attempt, true, true)
    requires AllKnown(job.artifact) && Known(job.artifact, step) && Orderly(stepped.reply)
             && run.lease == Lease(version, true)
    ensures Orderly(FinishMain(job, stepped, version).reply)
  {
    if stepped.reply.Value? && stepped.reply.value.Recover? {
      var found := FindRecovery(job.artifact.recoveries, stepped.reply.value.id);
      assert found.Some? && found.value in job.artifact.recoveries;
      RecoveryOrderly(job, found.value, stepped.run, version);
    }
  }

  function ExecuteMain<W>(job: Job<W>, step: Step, run: Run<W>, version: nat, attempt: nat): (out: Out<W, MainEnd>)
    ensures MainEnding(job, step, run, out, version, attempt)
    ensures AllKnown(job.artifact) && Known(job.artifact, step) && run.lease == Lease(version, true) ==>
              Orderly(out.reply)
  {
    var stepped := ExecuteStep(job, step, run.(entries := run.entries + 1), version, attempt, true, true);
    FinishMainEnds(job, step, run, stepped, version, attempt);
    assert AllKnown(job.artifact) && Known(job.artifact, step) && run.lease == Lease(version, true)
           ==> Orderly(FinishMain(job, stepped, version).reply) by {
      if AllKnown(job.artifact) && Known(job.artifact, step) && run.lease == Lease(version, true) {
        FinishMainOrderly(job, step, run, stepped, version, attempt);
      }
    }
    FinishMain(job, stepped, version)
  }

  lemma MainIsFinish<W>(job: Job<W>, step: Step, run: Run<W>, version: nat, attempt: nat)
    ensures ExecuteMain(job, step, run, version, attempt)
         == FinishMain(job, ExecuteStep(job, step, run.(entries := run.entries + 1), version, attempt, true, true),
                       version)
  {
  }

  /** How many recovery starts are still allowed. */
  function Budget(recoveries: seq<Recovery>, uses: map<Id, nat>): nat {
    if recoveries == [] then 0 else
    var r := recoveries[|recoveries| - 1];
    Budget(recoveries[..|recoveries| - 1], uses)
      + (if Uses(uses, r.id) < r.maxUses then r.maxUses - Uses(uses, r.id) else 0)
  }

  lemma {:induction false} BudgetFalls(recoveries: seq<Recovery>, uses: map<Id, nat>, r: Recovery)
    requires Uses(uses, r.id) < r.maxUses
    ensures Budget(recoveries, uses[r.id := Uses(uses, r.id) + 1]) <= Budget(recoveries, uses)
    ensures r in recoveries ==> Budget(recoveries, uses[r.id := Uses(uses, r.id) + 1]) < Budget(recoveries, uses)
  {
    if recoveries != [] {
      BudgetFalls(recoveries[..|recoveries| - 1], uses, r);
    }
  }

  lemma JumpSpends<W>(job: Job<W>, step: Step, a: Run<W>, b: Run<W>)
    requires exists r :: Spent(job, step, a, b, r)
    ensures Budget(job.artifact.recoveries, b.uses) < Budget(job.artifact.recoveries, a.uses)
  {
    var r :| Spent(job, step, a, b, r);
    BudgetFalls(job.artifact.recoveries, a.uses, r);
  }

  function IndexOf(steps: seq<Step>, id: Id): (found: Option<nat>)
    ensures found.Some? ==> found.value < |steps| && steps[found.value].id == id
    ensures found.None? ==> id !in StepIds(steps)
  {
    if steps == [] then None
    else if steps[|steps| - 1].id == id then Some(|steps| - 1)
    else IndexOf(steps[..|steps| - 1], id)
  }

  /** Everything kept while a human holds the session. */
  datatype Continuation<+W> = Continuation(run: Run<W>, index: nat, fingerprint: string, retryStep: bool,
                                           retryAttempt: nat)

  datatype RunEnd<+W> =
    | Ended(result: Result, final: Run<W>)
    | PausedAt(kept: Continuation<W>)
    | Broken(crash: Crash, final: Run<W>)

  function Complete<W>(job: Job<W>, run: Run<W>): (end: RunEnd<W>)
    ensures end.Ended? && Quiet(run, end.final)
    ensures end.result.Success? ==> end.result.outputs == run.outputs
  {
    var verified := WaitUntil(job, job.artifact.checkpoint, run);
    match verified.reply
    case Raised(error) => Ended(Failure(error.code, None), verified.run)
    case Value(holds) =>
      Ended(if !holds then Failure("checkpoint_mismatch", None)
            else if !job.surface.outputsValid(TextsOf(run.outputs)) then Failure("output_validation_failed", None)
            else Success(run.outputs), verified.run)
  }

  function Retain<W>(job: Job<W>, result: Result, run: Run<W>, index: nat): (end: RunEnd<W>)
    requires result.Intervention?
    ensures end.PausedAt? || (end.Ended? && end.result.Failure?)
    ensures Quiet(run, RunOf(end))
    ensures end.PausedAt? ==>
              end.kept.index == index && end.kept.retryStep == result.retryStep
                && end.kept.retryAttempt == result.retryAttempt
  {
    var seen := Observe(job, run);
    match seen.reply
    case Raised(error) => Ended(Failure(error.code, None), seen.run)
    case Value(observation) => PausedAt(Continuation(seen.run, index, observation.fingerprint, result.retryStep,
                                                     result.retryAttempt))
  }

  function RunOf<W>(end: RunEnd<W>): Run<W> {
    match end
    case Ended(_, run) => run
    case PausedAt(kept) => kept.run
    case Broken(_, run) => run
  }

  /** One round of the main loop: the run is over, or the loop goes on at some step. */
  datatype Round<+W> = Over(end: RunEnd<W>) | Next(run: Run<W>, version: nat, index: nat)

  function Proceed<W>(beat: Out<W, nat>, target: Option<nat>): Round<W>
    requires !beat.reply.Raised?
  {
    if beat.reply.Crashed? then Over(Broken(beat.reply.crash, beat.run))
    else if target.None? then Over(Broken(MissingReference, beat.run))
    else Next(beat.run, beat.reply.value, target.value)
  }

  /** How the loop goes on after a main step ended as `main`. */
  function Settle<W>(job: Job<W>, main: Out<W, MainEnd>, version: nat, index: nat): Round<W>
    requires index < |job.artifact.steps|
  {
    match main.reply
    case Raised(error) => Over(Ended(Failure(error.code, None), main.run))
    case Crashed(crash) => Over(Broken(crash, main.run))
    case Value(Leave(result)) =>
      Over(if result.Intervention? then Retain(job, result, main.run, index) else Ended(result, main.run))
    case Value(Jump(to, version')) => Proceed(Heartbeat(job, main.run, version'), IndexOf(job.artifact.steps, to))
    case Value(Advance) => Proceed(Heartbeat(job, main.run, version), Some(index + 1))
  }

  lemma SettleProgresses<W>(job: Job<W>, step: Step, run: Run<W>, main: Out<W, MainEnd>, version: nat, index: nat,
                            attempt: nat)
    requires index < |job.artifact.steps| && MainEnding(job, step, run, main, version, attempt)
    ensures
      var round := Settle(job, main, version, index);
      round.Next? ==>
        && round.index <= |job.artifact.steps|
        && ((round.run.uses == run.uses && round.index == index + 1)
            || Budget(job.artifact.recoveries, round.run.uses) < Budget(job.artifact.recoveries, run.uses))
  {
    if main.reply.Value? && main.reply.value.Jump? {
      JumpSpends(job, step, run, main.run);
    }
  }

  function AttemptAt(index: nat, first: (nat, nat)): nat {
    if index == first.0 then first.1 else 1
  }

  function DriveOnce<W>(job: Job<W>, run: Run<W>, version: nat, index: nat, first: (nat, nat)): (round: Round<W>)
    requires index < |job.artifact.steps|
    ensures round.Next? ==>
              && round.index <= |job.artifact.steps|
              && ((round.run.uses == run.uses && round.index == index + 1)
                  || Budget(job.artifact.recoveries, round.run.uses) < Budget(job.artifact.recoveries, run.uses))
  {
    var step, attempt := job.artifact.steps[index], AttemptAt(index, first);
    var main := ExecuteMain(job, step, run, version, attempt);
    SettleProgresses(job, step, run, main, version, index, attempt);
    Settle(job, main, version, index)
  }

  /** The main loop: `first` is the interrupted step and the attempt number it continues with. */
  function Drive<W>(job: Job<W>, run: Run<W>, version: nat, index: nat, first: (nat, nat)): RunEnd<W>
    requires index <= |job.artifact.steps|
    decreases Budget(job.artifact.recoveries, run.uses), |job.artifact.steps| - index
  {
    if index == |job.artifact.steps| then Complete(job, run) else
    match DriveOnce(job, run, version, index, first)
    case Over(end) => end
    case Next(run', version', index') => Drive(job, run', version', index', first)
  }

  /** A run from its opened session, with the lease just created for automation. */
  function Begin<W>(world: W): Run<W> {
    Run(world, Lease(1, true), map[], map[], 0, false, false, {}, [], [], [], 0, [])
  }

  function Execute<W>(job: Job<W>, world: W): RunEnd<W> {
    var run := Begin(world);
    if !job.inputsValid then Ended(Failure("invalid_input", None), run)
    else if job.tenant !in job.artifact.variants then Ended(Failure("incompatible_tenant", None), run)
    else
      var ready := AllEvaluate(job, job.artifact.preconditions, run);
      match ready.reply
      case Raised(error) => Ended(Failure(error.code, None), ready.run)
      case Value(false) => Ended(Failure("precondition_mismatch", None), ready.run)
      case Value(true) => Drive(job, ready.run, 1, 0, (0, 1))
  }

  // ---------------------------------------------------------------- resuming after a human

  function Reject<W, T>(code: string, run: Run<W>): Out<W, T> {
    Out(Raised(Plain(code)), run)
  }

  /** The last extraction of an output at or before the interrupted step. */
  function LastExtraction(steps: seq<Step>, output: string): (found: Option<Step>)
    ensures found.Some? ==>
              && found.value in steps && found.value.body.action.Extract?
              && found.value.body.action.extracted == output
  {
    if steps == [] then None
    else if steps[|steps| - 1].body.action.Extract? && steps[|steps| - 1].body.action.extracted == output
    then Some(steps[|steps| - 1])
    else LastExtraction(steps[..|steps| - 1], output)
  }

  /** Between periods of human control a resume check changes the world and the outputs, nothing else. */
  ghost predicate Rechecked<W>(a: Run<W>, b: Run<W>) {
    && b == a.(world := b.world, stale := b.stale, marked := b.marked, outputs := b.outputs,
               extractions := b.extractions)
    && (a.stale ==> b.stale) && (a.marked ==> b.marked)
    && (AllFrom(a.outputs, a.epoch) ==> b.stale == a.stale && AllFrom(b.outputs, b.epoch))
  }

  /** The state after one output was read again. */
  function Noted<W>(run: Run<W>, step: Step, target: Option<string>, text: string, world: W): Run<W>
    requires step.body.action.Extract?
  {
    run.(world := world, outputs := run.outputs[step.body.action.extracted := Reading(text, run.epoch)],
         extractions := run.extractions + [DeedOf(step, target, run)])
  }

  /** One output read again: its control is found, policy judges the reading, and the text is kept. */
  function ReadNext<W>(job: Job<W>, step: Step, seen: Observation, run: Run<W>): (out: Out<W, ()>)
    requires step.body.action.Extract? && step.body.target.Some?
    ensures Rechecked(run, out.run) && !out.reply.Crashed?
    ensures !out.reply.Value? ==> out.run == run.(world := out.run.world, marked := out.run.marked)
  {
    var (target, run) :- Resolve(job, step.body.target, run);
    var (decision, run) :- Judge(job, step.body, seen, target, run);
    if decision != Allow then Reject("resume_output_forbidden", run) else
    var (answer, world) := job.surface.extract(run.world, target.value, step.body.action);
    match answer
    case Fails(failure) => Out(Raised(failure), run.(world := world))
    case Says(text) => Out(Value(()), Noted(run, step, target, text, world))
  }

  function ReadAgain<W>(job: Job<W>, names: seq<string>, steps: seq<Step>, seen: Observation, run: Run<W>)
    : (out: Out<W, ()>)
    ensures Rechecked(run, out.run) && !out.reply.Crashed?
  {
    if names == [] then Out(Value(()), run) else
    var extraction := LastExtraction(steps, names[0]);
    if extraction.None? || extraction.value.body.target.None? then Reject("resume_output_unavailable", run) else
    var (_, run) :- ReadNext(job, extraction.value, seen, run);
    ReadAgain(job, names[1..], steps, seen, run)
  }

  lemma ReadOn<W>(job: Job<W>, names: seq<string>, steps: seq<Step>, seen: Observation, run: Run<W>, step: Step)
    requires names != [] && LastExtraction(steps, names[0]) == Some(step) && step.body.target.Some?
    ensures
      var next := ReadNext(job, step, seen, run);
      ReadAgain(job, names, steps, seen, run)
      == if next.reply.Value? then ReadAgain(job, names[1..], steps, seen, next.run) else next
  {
  }

  function OutputsOf(conditions: seq<Condition>): set<string> {
    if conditions == [] then {} else ConditionOutputs(conditions[0]) + OutputsOf(conditions[1..])
  }

  function DetectedAfter(outcomes: seq<Branch>, refs: seq<Id>): seq<Condition> {
    if outcomes == [] then [] else
    DetectedAfter(outcomes[..|outcomes| - 1], refs)
      + (if outcomes[|outcomes| - 1].code in refs then [outcomes[|outcomes| - 1].detect] else [])
  }

  /** The conditions a resume check may judge, whose outputs are therefore read again first. */
  function ResumeConditions(artifact: Artifact, step: Step, retryStep: bool): seq<Condition> {
    (if retryStep then step.body.preconditions else step.body.postconditions)
      + DetectedAfter(artifact.outcomes, step.outcomeRefs)
  }

  function IdentityEvaluates<W>(job: Job<W>, conditions: seq<Condition>, run: Run<W>): (out: Out<W, bool>)
    ensures Quiet(run, out.run) && !out.reply.Crashed?
  {
    if conditions == [] then Out(Value(true), run)
    else if !ContainsIdentity(conditions[0]) then IdentityEvaluates(job, conditions[1..], run)
    else
      var (holds, run) :- Evaluate(job, conditions[0], run);
      if holds then IdentityEvaluates(job, conditions[1..], run) else Out(Value(false), run)
  }

  function ReadyToRetry<W>(job: Job<W>, k: Continuation<W>, step: Step, seen: Observation, run: Run<W>)
    : (out: Out<W, Option<Id>>)
    ensures Quiet(run, out.run) && !out.reply.Crashed?
  {
    if seen.fingerprint == k.fingerprint then Reject("resume_state_unchanged", run) else
    var (ready, run) :- AllEvaluate(job, step.body.preconditions, run);
    if !ready then Reject("resume_checkpoint_mismatch", run) else
    var (_, run) :- Resolve(job, step.body.target, run);
    var (_, run) :- CaptureFrame(job, run);
    Out(Value(None), run)
  }

  /** The interrupted step's postconditions hold in a state that the human changed. */
  function StillConfirmed<W>(job: Job<W>, k: Continuation<W>, step: Step, run: Run<W>): (out: Out<W, Option<Id>>)
    ensures Quiet(run, out.run) && !out.reply.Crashed?
  {
    if step.body.postconditions == [] then Reject("resume_checkpoint_missing", run) else
    var (holds, run) :- AllAwaited(job, step.body.postconditions, run);
    if !holds then Reject("resume_checkpoint_mismatch", run) else
    var (now, run) :- Observe(job, run);
    if now.fingerprint == k.fingerprint then Reject("resume_state_unchanged", run) else
    var (_, run) :- CaptureFrame(job, run);
    Out(Value(None), run)
  }

  function ReadyToContinue<W>(job: Job<W>, k: Continuation<W>, step: Step, run: Run<W>): (out: Out<W, Option<Id>>)
    ensures Quiet(run, out.run)
    ensures Known(job.artifact, step) ==> !out.reply.Crashed?
  {
    var (identity, run) :- IdentityEvaluates(job, step.body.postconditions, run);
    if !identity then Reject("resume_identity_mismatch", run) else
    var (outcome, run) :- Detect(job, Outcomes, step.outcomeRefs, Detectors(job.artifact.outcomes), run);
    if outcome.None? then StillConfirmed(job, k, step, run) else
    var (_, run) :- CaptureFrame(job, run);
    Out(Value(outcome), run)
  }

  /** The outputs that a resume check needs, in the order of the surface. */
  function NamesNeeded<W>(job: Job<W>, k: Continuation<W>): seq<string>
    requires k.index < |job.artifact.steps|
  {
    job.surface.order(OutputsOf(ResumeConditions(job.artifact, job.artifact.steps[k.index], k.retryStep)))
  }

  /** Outputs read before the human acted are dropped; those the checks need are read again. */
  function ReadForCheck<W>(job: Job<W>, k: Continuation<W>, seen: Observation, run: Run<W>): (out: Out<W, ()>)
    requires k.index < |job.artifact.steps|
    ensures Rechecked(run.(outputs := map[]), out.run) && !out.reply.Crashed?
  {
    ReadAgain(job, NamesNeeded(job, k), job.artifact.steps[..k.index + 1], seen, run.(outputs := map[]))
  }

  /** The judgement that follows once the outputs were read again. */
  function Checked<W>(job: Job<W>, k: Continuation<W>, step: Step, seen: Observation, read: Out<W, ()>)
    : (out: Out<W, Option<Id>>)
    ensures Quiet(read.run, out.run)
    ensures Known(job.artifact, step) && !read.reply.Crashed? ==> !out.reply.Crashed?
  {
    var (_, run) :- read;
    if k.retryStep then ReadyToRetry(job, k, step, seen, run) else ReadyToContinue(job, k, step, run)
  }

  /** Judges the state a human left, before automation gets the session back. */
  function ValidateResume<W>(job: Job<W>, k: Continuation<W>, run: Run<W>): (out: Out<W, Option<Id>>)
    requires k.index < |job.artifact.steps|
    ensures out.run == run.(world := out.run.world, marked := out.run.marked, outputs := out.run.outputs,
                            extractions := out.run.extractions)
    ensures run.marked ==> out.run.marked
    ensures out.reply.Value? ==> AllFrom(out.run.outputs, out.run.epoch)
    ensures Known(job.artifact, job.artifact.steps[k.index]) ==> !out.reply.Crashed?
  {
    var (seen, run) :- Observe(job, run);
    if !seen.locationAllowed then Reject("resume_location_not_allowed", run)
    else Checked(job, k, job.artifact.steps[k.index], seen, ReadForCheck(job, k, seen, run))
  }

  /** What a period of human control hands back: the changed world and the lease version of the resumption. */
  datatype Handback<+W> = Handback(world: W, version: nat)

  function Resume<W>(job: Job<W>, k: Continuation<W>, checked: Out<W, Option<Id>>, version: nat): RunEnd<W>
    requires k.index < |job.artifact.steps|
  {
    match checked.reply
    case Raised(_) => PausedAt(k.(run := checked.run))
    case Crashed(crash) => Broken(crash, checked.run)
    case Value(outcome) =>
      var run := checked.run.(lease := Lease(version, true));
      if outcome.Some? then Ended(BusinessOutcome(outcome.value), run)
      else Drive(job, run, version, StartAt(k), (k.index, k.retryAttempt))
  }

  /** A step that never reached its action is tried again; any other is taken as done. */
  function StartAt<W>(k: Continuation<W>): nat {
    if k.retryStep then k.index else k.index + 1
  }

  /** The state a human hands back: a changed world, in the next epoch. */
  function Returned<W>(k: Continuation<W>, back: Handback<W>): Run<W> {
    k.run.(world := back.world, epoch := k.run.epoch + 1)
  }

  function Continue<W>(job: Job<W>, k: Continuation<W>, back: Handback<W>): RunEnd<W>
    requires k.index < |job.artifact.steps|
  {
    Resume(job, k, ValidateResume(job, k, Returned(k, back)), back.version)
  }

  /** A whole run: the first segment, then one resumption after each period of human control. */
  function Life<W>(job: Job<W>, world: W, backs: seq<Handback<W>>): RunEnd<W> {
    if backs == [] then Execute(job, world) else
    var before := Life(job, world, backs[..|backs| - 1]);
    if before.PausedAt? && before.kept.index < |job.artifact.steps|
    then Continue(job, before.kept, backs[|backs| - 1]) else before
  }
}
