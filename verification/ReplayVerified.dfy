/**
What the end of a run is worth: a success, an outcome, a failure and a check after human control are each tied to
the answers of the surface that justify them.
*/
module ReplayVerified {
  import opened Prelude
  import opened Capability
  import opened Replay
  import opened ReplayProofs
  import opened ReplayGate
  import opened ReplayCauses

  // ---------------------------------------------------------------- main steps and recoveries

  /** Each check of the record's identity came true, or was answered yes. */
  ghost predicate RecordHolds<W(!new)>(job: Job<W>, step: Step, texts: Texts, from: W, to: W) {
    forall c <- step.body.postconditions | ContainsIdentity(c) ::
      Awaited(job.surface, c, texts, from, to) || Answered(job.surface, c, texts, true, from, to)
  }

  /** The result that a step leaves the run with has its cause; `main` steps may recover. */
  ghost predicate ResultExplained<W(!new)>(job: Job<W>, step: Step, result: Replay.Result, run: Run<W>, main: bool) {
    match result
    case Success(_) => false
    case BusinessOutcome(code) =>
      && (exists from: W :: OnlyBranch(job.surface, job.artifact.outcomes, step.outcomeRefs, code, TextsOf(run.outputs),
                                       from, run.world))
      && (exists from: W :: RecordHolds(job, step, TextsOf(run.outputs), from, run.world))
    case Failure(code, at) => at == Some(step.id) && Caused(job, step, code, run.uses, main)
    case Intervention(code, at, _, _) => at == step.id && Caused(job, step, code, run.uses, main)
  }

  ghost predicate InRecovery(a: Artifact, step: Step) {
    exists r <- a.recoveries :: step in r.steps
  }

  /** It is the result of a main step, or of a step of a recovery. */
  ghost predicate ResultOfSome<W(!new)>(job: Job<W>, result: Replay.Result, run: Run<W>) {
    || (exists step <- job.artifact.steps :: ResultExplained(job, step, result, run, true))
    || (exists step: Step :: InRecovery(job.artifact, step) && ResultExplained(job, step, result, run, false))
  }

  lemma FinishedIsExplained<W(!new)>(job: Job<W>, step: Step, out: Out<W, StepEnd>, main: bool)
    requires StepExplained(job, step, out, main)
    requires out.reply.Value? && out.reply.value.Finished?
    ensures ResultExplained(job, step, out.reply.value.result, out.run, main)
  {
    var texts := TextsOf(out.run.outputs);
    var from :| Explained(job, step, out.reply, out.run.uses, texts, from, out.run.world, main);
    if out.reply.value.result.BusinessOutcome? {
      var begun: W :| RightRecord(job, step, texts, begun, out.run.world);
      assert RecordHolds(job, step, texts, begun, out.run.world);
    }
  }

  lemma {:induction false} RecoverExplained<W(!new)>(job: Job<W>, steps: seq<Step>, run: Run<W>, version: nat)
    requires forall step <- steps :: InRecovery(job.artifact, step)
    ensures
      var out := RecoverFrom(job, steps, run, version);
      out.reply.Value? && out.reply.value.Abandoned? ==> ResultOfSome(job, out.reply.value.result, out.run)
    decreases |steps|
  {
    if steps != [] {
      StepEndsForACause(job, steps[0], run, version, 1, false, false);
      RecoverNext(job, steps, run, version);
      var stepped := ExecuteStep(job, steps[0], run, version, 1, false, false);
      var beat := Heartbeat(job, stepped.run, version);
      if stepped.reply == Value(Done) && beat.reply.Value? {
        RecoverExplained(job, steps[1..], beat.run, beat.reply.value);
      } else if stepped.reply.Value? && stepped.reply.value.Finished? {
        FinishedIsExplained(job, steps[0], stepped, false);
      }
    }
  }

  lemma RecoveryExplained<W(!new)>(job: Job<W>, recovery: Recovery, run: Run<W>, version: nat)
    requires recovery in job.artifact.recoveries
    ensures
      var out := ExecuteRecovery(job, recovery, run, version);
      out.reply.Value? && out.reply.value.Abandoned? ==> ResultOfSome(job, out.reply.value.result, out.run)
  {
    var beat := Heartbeat(job, Started(run, recovery), version);
    if beat.reply.Value? {
      RecoverExplained(job, recovery.steps, beat.run, beat.reply.value);
    }
  }

  /** How a main step may end: done, or with an explained result, or with an error that the surface explains. */
  ghost predicate MainExplained<W(!new)>(job: Job<W>, step: Step, main: Out<W, MainEnd>) {
    match main.reply
    case Crashed(_) => true
    case Raised(e) => Complaint(job, step, e)
    case Value(Advance) => exists acted: W :: DoneSince(job, step, main.run, acted, true)
    case Value(Leave(result)) =>
      if result.Intervention? then ResultExplained(job, step, result, main.run, true)
      else ResultOfSome(job, result, main.run)
    case Value(Jump(_, _)) => true
  }

  lemma FinishExplained<W(!new)>(job: Job<W>, step: Step, stepped: Out<W, StepEnd>, version: nat)
    requires StepExplained(job, step, stepped, true) && step in job.artifact.steps
    ensures MainExplained(job, step, FinishMain(job, stepped, version))
  {
    if stepped.reply.Value? {
      match stepped.reply.value {
        case Done =>
        case Finished(_) => FinishedIsExplained(job, step, stepped, true);
        case Recover(id) =>
          var found := FindRecovery(job.artifact.recoveries, id);
          if found.Some? {
            RecoveryExplained(job, found.value, stepped.run, version);
          }
      }
    }
  }

  lemma MainStepExplained<W(!new)>(job: Job<W>, step: Step, run: Run<W>, version: nat, attempt: nat)
    requires step in job.artifact.steps
    ensures MainExplained(job, step, ExecuteMain(job, step, run, version, attempt))
  {
    var entered := run.(entries := run.entries + 1);
    MainIsFinish(job, step, run, version, attempt);
    StepEndsForACause(job, step, entered, version, attempt, true, true);
    FinishExplained(job, step, ExecuteStep(job, step, entered, version, attempt, true, true), version);
  }

  // ---------------------------------------------------------------- the end of a run

  /** The checkpoint was awaited with exactly these texts, came true and left the final world, and they fit. */
  ghost predicate Achieved<W(!new)>(job: Job<W>, outputs: map<string, Reading>, final: Run<W>) {
    && outputs == final.outputs && job.surface.outputsValid(TextsOf(outputs))
    && exists w: W :: job.surface.waitUntil(w, job.artifact.checkpoint, TextsOf(outputs)) == (Says(true), final.world)
  }

  /** What may be behind the failure of a run that names no step. */
  ghost predicate RunCaused<W(!new)>(job: Job<W>, code: string, final: Run<W>) {
    var s, a := job.surface, job.artifact;
    || (code == "invalid_input" && !job.inputsValid)
    || (code == "incompatible_tenant" && job.tenant !in a.variants)
    || (code == "precondition_mismatch" && exists c <- a.preconditions, w, texts ::
          s.evaluate(w, c, texts).0 == Says(false))
    || (code == "checkpoint_mismatch" && exists w, texts :: s.waitUntil(w, a.checkpoint, texts).0 == Says(false))
    || (code == "output_validation_failed" && !s.outputsValid(TextsOf(final.outputs)))
    || (exists e: SurfaceError :: e.code == code && Complains(s, e))
    || (exists e: SurfaceError, step: Step :: e.code == code && step in a.steps && Complaint(job, step, e))
  }

  ghost predicate EndExplained<W(!new)>(job: Job<W>, end: RunEnd<W>) {
    match end
    case Broken(_, _) => true
    case PausedAt(kept) => kept.index < |job.artifact.steps| ==> PauseIsExplained(job, kept)
    case Ended(Success(outputs), final) => Achieved(job, outputs, final)
    case Ended(Failure(code, None), final) => RunCaused(job, code, final)
    case Ended(result, final) => !result.Intervention? && ResultOfSome(job, result, final)
  }

  /** What the interrupted step stopped for, and that the fingerprint kept is one the surface showed. */
  ghost predicate PauseIsExplained<W(!new)>(job: Job<W>, kept: Continuation<W>)
    requires kept.index < |job.artifact.steps|
  {
    && (exists code: string :: Caused(job, job.artifact.steps[kept.index], code, kept.run.uses, true))
    && exists w: W ::
         job.surface.observe(w).0.Says? && job.surface.observe(w).0.said.fingerprint == kept.fingerprint
  }

  lemma CompletionExplained<W(!new)>(job: Job<W>, run: Run<W>)
    ensures EndExplained(job, Complete(job, run))
  {
    var texts, c := TextsOf(run.outputs), job.artifact.checkpoint;
    var (answer, world) := job.surface.waitUntil(run.world, c, texts);
    if answer == Says(false) {
      assert job.surface.waitUntil(run.world, c, texts).0 == Says(false);
    }
  }

  lemma RetentionExplained<W(!new)>(job: Job<W>, result: Replay.Result, run: Run<W>, index: nat)
    requires result.Intervention? && index < |job.artifact.steps|
    requires ResultExplained(job, job.artifact.steps[index], result, run, true)
    ensures EndExplained(job, Retain(job, result, run, index))
  {
    var seen := Observe(job, run);
    assert seen.reply == Reported(job.surface.observe(run.world).0);
    if seen.reply.Raised? {
      assert Complains(job.surface, seen.reply.error);
    }
  }

  lemma SettlementExplained<W(!new)>(job: Job<W>, main: Out<W, MainEnd>, version: nat, index: nat)
    requires index < |job.artifact.steps| && MainExplained(job, job.artifact.steps[index], main)
    ensures
      var round := Settle(job, main, version, index);
      round.Over? ==> EndExplained(job, round.end)
  {
    if main.reply.Value? && main.reply.value.Leave? && main.reply.value.result.Intervention? {
      RetentionExplained(job, main.reply.value.result, main.run, index);
    }
  }

  // ---------------------------------------------------------------- the check after human control

  lemma {:induction false} AwaitedAll<W(!new)>(job: Job<W>, conditions: seq<Condition>, run: Run<W>)
    ensures
      var out := AllAwaited(job, conditions, run);
      var s, texts, from, to := job.surface, TextsOf(run.outputs), run.world, out.run.world;
      && Since(s, from, to)
      && (out.reply == Value(true) ==> forall c <- conditions :: Awaited(s, c, texts, from, to))
  {
    if conditions != [] {
      var s, texts, c := job.surface, TextsOf(run.outputs), conditions[0];
      var waited := WaitUntil(job, c, run);
      SinceEvaluated(s, run.world, c, texts);
      if waited.reply == Value(true) {
        AwaitedAll(job, conditions[1..], waited.run);
        JustAwaited(s, c, texts, run.world);
        var rest := AllAwaited(job, conditions[1..], waited.run);
        AllAwaitedSince(s, conditions, _ => true, texts, run.world, waited.run.world, rest.run.world,
                        rest.reply == Value(true));
      }
    }
  }

  lemma {:induction false} IdentityIsAnswered<W(!new)>(job: Job<W>, conditions: seq<Condition>, run: Run<W>)
    ensures
      var out := IdentityEvaluates(job, conditions, run);
      var s, texts, from, to := job.surface, TextsOf(run.outputs), run.world, out.run.world;
      && Since(s, from, to)
      && (out.reply == Value(true) ==>
            forall c <- conditions | ContainsIdentity(c) :: Answered(s, c, texts, true, from, to))
  {
    if conditions != [] {
      var s, texts, c := job.surface, TextsOf(run.outputs), conditions[0];
      if !ContainsIdentity(c) {
        IdentityIsAnswered(job, conditions[1..], run);
      } else {
        var asked := Evaluate(job, c, run);
        SinceEvaluated(s, run.world, c, texts);
        if asked.reply == Value(true) {
          IdentityIsAnswered(job, conditions[1..], asked.run);
          JustAnswered(s, c, texts, run.world);
          var rest := IdentityEvaluates(job, conditions[1..], asked.run);
          SinceThen(s, run.world, asked.run.world, rest.run.world);
          forall p <- conditions | ContainsIdentity(p) && rest.reply == Value(true)
            ensures Answered(s, p, texts, true, run.world, rest.run.world)
          {
            if p in conditions[1..] {
              AnsweredWithin(s, p, texts, true, run.world, asked.run.world, rest.run.world, rest.run.world);
            } else {
              AnsweredWithin(s, p, texts, true, run.world, run.world, asked.run.world, rest.run.world);
            }
          }
        }
      }
    }
  }

  /** Between the two worlds the page was observed again and had changed since the pause. */
  ghost predicate Changed<W(!new)>(s: Surface<W>, fingerprint: string, w: W, to: W) {
    s.observe(w).0.Says? && s.observe(w).0.said.fingerprint != fingerprint && Since(s, s.observe(w).1, to)
  }

  /** The interrupted step can be tried again: the page has changed, its preconditions held and its target was found. */
  ghost predicate RetryReady<W(!new)>(job: Job<W>, step: Step, texts: Texts, from: W, ready: W, handle: Option<string>,
                                      bound: W, to: W)
  {
    && HeldInTurn(job.surface, step.body.preconditions, texts, from, ready)
    && Bound(job.surface, step.body.target, ready, handle, bound) && Since(job.surface, bound, to)
  }

  /** The interrupted step's record is the right one, and either an outcome shows or the step is confirmed as done. */
  ghost predicate ContinueReady<W(!new)>(job: Job<W>, k: Continuation<W>, step: Step, outcome: Option<Id>, texts: Texts,
                                         from: W, to: W)
  {
    var s, outcomes := job.surface, job.artifact.outcomes;
    && (forall c <- step.body.postconditions | ContainsIdentity(c) :: Answered(s, c, texts, true, from, to))
    && (if outcome.Some? then OnlyBranch(s, outcomes, step.outcomeRefs, outcome.value, texts, from, to)
        else
          && NoBranch(s, outcomes, step.outcomeRefs, texts, from, to)
          && step.body.postconditions != []
          && (forall c <- step.body.postconditions :: Awaited(s, c, texts, from, to))
          && exists w: W :: Changed(s, k.fingerprint, w, to))
  }

  lemma RetryChecked<W(!new)>(job: Job<W>, k: Continuation<W>, step: Step, seen: Observation, run: Run<W>)
    ensures
      var out := ReadyToRetry(job, k, step, seen, run);
      out.reply.Value? ==>
        && out.reply.value == None && seen.fingerprint != k.fingerprint
        && exists ready, handle, bound ::
             RetryReady(job, step, TextsOf(run.outputs), run.world, ready, handle, bound, out.run.world)
  {
    var out := ReadyToRetry(job, k, step, seen, run);
    if out.reply.Value? {
      EvaluatedInTurn(job, step.body.preconditions, run);
      var ready := AllEvaluate(job, step.body.preconditions, run);
      var target := Resolve(job, step.body.target, ready.run);
      SinceSeen(job.surface, target.run.world);
      assert RetryReady(job, step, TextsOf(run.outputs), run.world, ready.run.world, target.reply.value,
                        target.run.world, out.run.world);
    }
  }

  lemma StillChecked<W(!new)>(job: Job<W>, k: Continuation<W>, step: Step, run: Run<W>)
    ensures
      var out := StillConfirmed(job, k, step, run);
      out.reply.Value? ==>
        && out.reply.value == None && step.body.postconditions != [] && Since(job.surface, run.world, out.run.world)
        && (forall c <- step.body.postconditions ::
              Awaited(job.surface, c, TextsOf(run.outputs), run.world, out.run.world))
        && exists w: W :: Changed(job.surface, k.fingerprint, w, out.run.world)
  {
    var out := StillConfirmed(job, k, step, run);
    if out.reply.Value? {
      var s, texts := job.surface, TextsOf(run.outputs);
      AwaitedAll(job, step.body.postconditions, run);
      var waited := AllAwaited(job, step.body.postconditions, run).run;
      var now := Observe(job, waited).run;
      SinceSeen(s, waited.world);
      SinceSeen(s, now.world);
      SinceThen(s, waited.world, now.world, out.run.world);
      SinceThen(s, run.world, waited.world, out.run.world);
      assert Changed(s, k.fingerprint, waited.world, out.run.world);
      forall c <- step.body.postconditions
        ensures Awaited(s, c, texts, run.world, out.run.world)
      {
        assert Since(s, run.world, run.world);
        AwaitedWithin(s, c, texts, run.world, run.world, waited.world, out.run.world);
      }
    }
  }

  lemma ContinuationChecked<W(!new)>(job: Job<W>, k: Continuation<W>, step: Step, run: Run<W>)
    ensures
      var out := ReadyToContinue(job, k, step, run);
      out.reply.Value? ==>
        ContinueReady(job, k, step, out.reply.value, TextsOf(run.outputs), run.world, out.run.world)
  {
    var s, texts, outcomes := job.surface, TextsOf(run.outputs), job.artifact.outcomes;
    var out := ReadyToContinue(job, k, step, run);
    if out.reply.Value? {
      IdentityIsAnswered(job, step.body.postconditions, run);
      var identity := IdentityEvaluates(job, step.body.postconditions, run).run;
      BranchIsAsked(job, Outcomes, outcomes, step.outcomeRefs, identity);
      var outcome := Detect(job, Outcomes, step.outcomeRefs, Detectors(outcomes), identity);
      StillChecked(job, k, step, outcome.run);
      SinceSeen(s, outcome.run.world);
      ContinuationJoined(job, k, step, out.reply.value, texts, run.world, identity.world, outcome.run.world,
                         out.run.world);
    }
  }

  lemma ContinuationJoined<W(!new)>(job: Job<W>, k: Continuation<W>, step: Step, outcome: Option<Id>, texts: Texts,
                                    a: W, b: W, c: W, d: W)
    requires Since(job.surface, a, b) && Since(job.surface, b, c) && Since(job.surface, c, d)
    requires forall p <- step.body.postconditions | ContainsIdentity(p) :: Answered(job.surface, p, texts, true, a, b)
    requires if outcome.Some?
             then OnlyBranch(job.surface, job.artifact.outcomes, step.outcomeRefs, outcome.value, texts, b, c)
             else NoBranch(job.surface, job.artifact.outcomes, step.outcomeRefs, texts, b, c)
    requires outcome.None? ==>
               && step.body.postconditions != []
               && (forall p <- step.body.postconditions :: Awaited(job.surface, p, texts, c, d))
               && exists w: W :: Changed(job.surface, k.fingerprint, w, d)
    ensures ContinueReady(job, k, step, outcome, texts, a, d)
  {
    var s, outcomes := job.surface, job.artifact.outcomes;
    assert Since(s, a, a) && Since(s, d, d);
    SinceThen(s, b, c, d);
    SinceThen(s, a, b, c);
    forall p <- step.body.postconditions | ContainsIdentity(p)
      ensures Answered(s, p, texts, true, a, d)
    {
      AnsweredWithin(s, p, texts, true, a, a, b, d);
    }
    if outcome.Some? {
      forall ref <- step.outcomeRefs
        ensures BranchAnswered(s, outcomes, ref, ref == outcome.value, texts, a, d)
      {
        var branch :| branch in outcomes && branch.code == ref
          && Answered(s, branch.detect, texts, ref == outcome.value, b, c);
        AnsweredWithin(s, branch.detect, texts, ref == outcome.value, a, b, c, d);
      }
    } else {
      NoBranchWithin(s, outcomes, step.outcomeRefs, texts, a, b, c, d);
      forall p <- step.body.postconditions
        ensures Awaited(s, p, texts, a, d)
      {
        AwaitedWithin(s, p, texts, a, c, d, d);
      }
    }
  }

  lemma {:induction false} AllReadAgain<W>(job: Job<W>, names: seq<string>, steps: seq<Step>, seen: Observation,
                                           run: Run<W>)
    ensures
      var out := ReadAgain(job, names, steps, seen, run);
      out.reply.Value? ==> out.run.outputs.Keys == run.outputs.Keys + (set name | name in names)
    decreases |names|
  {
    if names != [] && ReadAgain(job, names, steps, seen, run).reply.Value? {
      var step := LastExtraction(steps, names[0]).value;
      ReadOn(job, names, steps, seen, run, step);
      AllReadAgain(job, names[1..], steps, seen, ReadNext(job, step, seen, run).run);
    }
  }

  /** Among these steps the one at `j` is the last to extract the output. */
  predicate LatestReader(steps: seq<Step>, name: string, j: int) {
    && 0 <= j < |steps| && steps[j].body.action.Extract? && steps[j].body.action.extracted == name
    && forall later :: j < later < |steps| ==>
         !(steps[later].body.action.Extract? && steps[later].body.action.extracted == name)
  }

  ghost predicate ReadBy<W>(s: Surface<W>, d: Deed<W>, step: Step, name: string, text: string) {
    d.id == step.id && d.body == step.body && ReadAs(s, d, name, text)
  }

  /** The output was read as the last of these steps that extracts it does. */
  ghost predicate FromLatest<W>(job: Job<W>, steps: seq<Step>, run: Run<W>, name: string)
    requires name in run.outputs
  {
    exists j, i :: LatestReader(steps, name, j) && 0 <= i < |run.extractions|
                   && ReadBy(job.surface, run.extractions[i], steps[j], name, run.outputs[name].text)
  }

  ghost predicate AllFromLatest<W>(job: Job<W>, steps: seq<Step>, run: Run<W>) {
    forall name <- run.outputs :: FromLatest(job, steps, run, name)
  }

  lemma {:induction false} FoundIsLatest(steps: seq<Step>, name: string)
    ensures
      var found := LastExtraction(steps, name);
      found.Some? ==> exists j :: LatestReader(steps, name, j) && steps[j] == found.value
  {
    if steps != [] {
      var n := |steps| - 1;
      if steps[n].body.action.Extract? && steps[n].body.action.extracted == name {
        assert LatestReader(steps, name, n);
      } else {
        FoundIsLatest(steps[..n], name);
        if LastExtraction(steps, name).Some? {
          var j :| LatestReader(steps[..n], name, j) && steps[..n][j] == LastExtraction(steps, name).value;
          assert forall later :: j < later < n ==> steps[later] == steps[..n][later];
          assert LatestReader(steps, name, j) && steps[j] == LastExtraction(steps, name).value;
        }
      }
    }
  }

  lemma OneMoreFromLatest<W>(job: Job<W>, steps: seq<Step>, run: Run<W>, after: Run<W>, step: Step, d: Deed<W>,
                             name: string)
    requires AllFromLatest(job, steps, run) && after.extractions == run.extractions + [d]
    requires name in after.outputs && after.outputs == run.outputs[name := after.outputs[name]]
    requires ReadBy(job.surface, d, step, name, after.outputs[name].text)
    requires exists j :: LatestReader(steps, name, j) && steps[j] == step
    ensures AllFromLatest(job, steps, after)
  {
    forall other <- after.outputs
      ensures FromLatest(job, steps, after, other)
    {
      if other == name {
        var j :| LatestReader(steps, name, j) && steps[j] == step;
        assert ReadBy(job.surface, after.extractions[|run.extractions|], steps[j], name, after.outputs[name].text);
      } else {
        assert FromLatest(job, steps, run, other);
        var j, i :| LatestReader(steps, other, j) && 0 <= i < |run.extractions|
                    && ReadBy(job.surface, run.extractions[i], steps[j], other, run.outputs[other].text);
        assert ReadBy(job.surface, after.extractions[i], steps[j], other, after.outputs[other].text);
      }
    }
  }

  lemma NotedFromLatest<W>(job: Job<W>, steps: seq<Step>, step: Step, seen: Observation, run: Run<W>, name: string)
    requires AllFromLatest(job, steps, run) && LastExtraction(steps, name) == Some(step) && step.body.target.Some?
    ensures AllFromLatest(job, steps, ReadNext(job, step, seen, run).run)
  {
    var next := ReadNext(job, step, seen, run);
    if next.reply.Value? {
      var d := next.run.extractions[|run.extractions|];
      FoundIsLatest(steps, name);
      OneMoreFromLatest(job, steps, run, next.run, step, d, name);
    } else {
      SameReadings(job, steps, run, next.run);
    }
  }

  lemma SameReadings<W>(job: Job<W>, steps: seq<Step>, a: Run<W>, b: Run<W>)
    requires AllFromLatest(job, steps, a) && a.outputs == b.outputs && a.extractions == b.extractions
    ensures AllFromLatest(job, steps, b)
  {
    forall name <- b.outputs ensures FromLatest(job, steps, b, name) {
      assert FromLatest(job, steps, a, name);
    }
  }

  lemma {:induction false} ReadFromLatest<W>(job: Job<W>, names: seq<string>, steps: seq<Step>, seen: Observation,
                                             run: Run<W>)
    requires AllFromLatest(job, steps, run)
    ensures AllFromLatest(job, steps, ReadAgain(job, names, steps, seen, run).run)
    decreases |names|
  {
    if names != [] && LastExtraction(steps, names[0]).Some? {
      var step := LastExtraction(steps, names[0]).value;
      if step.body.target.Some? {
        NotedFromLatest(job, steps, step, seen, run, names[0]);
        ReadOn(job, names, steps, seen, run, step);
        var next := ReadNext(job, step, seen, run);
        if next.reply.Value? {
          ReadFromLatest(job, names[1..], steps, seen, next.run);
        }
      }
    }
  }

  /** What the judgement that follows the readings establishes. */
  ghost predicate Judged<W(!new)>(job: Job<W>, k: Continuation<W>, seen: Observation, outcome: Option<Id>, texts: Texts,
                                  from: W, to: W)
    requires k.index < |job.artifact.steps|
  {
    var step := job.artifact.steps[k.index];
    if k.retryStep
    then outcome == None && seen.fingerprint != k.fingerprint
         && exists ready, handle, bound :: RetryReady(job, step, texts, from, ready, handle, bound, to)
    else ContinueReady(job, k, step, outcome, texts, from, to)
  }

  ghost predicate CheckedFrom<W(!new)>(job: Job<W>, k: Continuation<W>, run: Run<W>, outcome: Option<Id>, after: Run<W>,
                                       seen: Observation, from: W)
    requires k.index < |job.artifact.steps|
  {
    && job.surface.observe(run.world).0 == Says(seen) && seen.locationAllowed
    && after.outputs.Keys == (set name | name in NamesNeeded(job, k))
    && AllFromLatest(job, job.artifact.steps[..k.index + 1], after)
    && Judged(job, k, seen, outcome, TextsOf(after.outputs), from, after.world)
  }

  /**
  The state that a human left was found fit: the location is an allowed one, exactly the outputs that the checks
  need were read again, as the latest step up to the interrupted one reads them, and with their texts the
  interrupted step can be tried again in a page that has changed, or shows one of its outcomes, or is confirmed as
  done in a page that has changed.
  */
  ghost predicate CheckPassed<W(!new)>(job: Job<W>, k: Continuation<W>, run: Run<W>, outcome: Option<Id>, after: Run<W>)
    requires k.index < |job.artifact.steps|
  {
    exists seen: Observation, from: W :: CheckedFrom(job, k, run, outcome, after, seen, from)
  }

  /** A check that was accepted, from its readings on. */
  lemma CheckGoesOn<W>(job: Job<W>, k: Continuation<W>, run: Run<W>)
    requires k.index < |job.artifact.steps| && ValidateResume(job, k, run).reply.Value?
    ensures
      var step, seen := job.artifact.steps[k.index], Observe(job, run);
      && seen.reply.Value? && seen.reply.value.locationAllowed
      && var read := ReadForCheck(job, k, seen.reply.value, seen.run);
      && read.reply.Value?
      && ValidateResume(job, k, run) == if k.retryStep then ReadyToRetry(job, k, step, seen.reply.value, read.run)
                                        else ReadyToContinue(job, k, step, read.run)
  {
  }

  lemma JudgedAfterReading<W(!new)>(job: Job<W>, k: Continuation<W>, seen: Observation, read: Run<W>,
                                    out: Out<W, Option<Id>>)
    requires k.index < |job.artifact.steps| && out.reply.Value?
    requires
      var step := job.artifact.steps[k.index];
      out == if k.retryStep then ReadyToRetry(job, k, step, seen, read) else ReadyToContinue(job, k, step, read)
    ensures Judged(job, k, seen, out.reply.value, TextsOf(read.outputs), read.world, out.run.world)
    ensures out.run.outputs == read.outputs && out.run.extractions == read.extractions
  {
    if k.retryStep {
      RetryChecked(job, k, job.artifact.steps[k.index], seen, read);
    } else {
      ContinuationChecked(job, k, job.artifact.steps[k.index], read);
    }
  }

  lemma ReadingsFound<W>(job: Job<W>, k: Continuation<W>, seen: Observation, run: Run<W>)
    requires k.index < |job.artifact.steps| && ReadForCheck(job, k, seen, run).reply.Value?
    ensures
      var read := ReadForCheck(job, k, seen, run).run;
      && read.outputs.Keys == (set name | name in NamesNeeded(job, k))
      && AllFromLatest(job, job.artifact.steps[..k.index + 1], read)
  {
    ReadingsAmong(job, NamesNeeded(job, k), job.artifact.steps[..k.index + 1], seen, run.(outputs := map[]));
  }

  lemma ReadingsAmong<W>(job: Job<W>, names: seq<string>, steps: seq<Step>, seen: Observation, run: Run<W>)
    requires run.outputs == map[] && ReadAgain(job, names, steps, seen, run).reply.Value?
    ensures
      var read := ReadAgain(job, names, steps, seen, run).run;
      read.outputs.Keys == (set name | name in names) && AllFromLatest(job, steps, read)
  {
    AllReadAgain(job, names, steps, seen, run);
    ReadFromLatest(job, names, steps, seen, run);
  }

  lemma PassedAfterReading<W(!new)>(job: Job<W>, k: Continuation<W>, run: Run<W>, seen: Observation, read: Run<W>,
                                    out: Out<W, Option<Id>>)
    requires k.index < |job.artifact.steps| && out.reply.Value?
    requires job.surface.observe(run.world).0 == Says(seen) && seen.locationAllowed
    requires read.outputs.Keys == (set name | name in NamesNeeded(job, k))
    requires AllFromLatest(job, job.artifact.steps[..k.index + 1], read)
    requires Judged(job, k, seen, out.reply.value, TextsOf(read.outputs), read.world, out.run.world)
    requires out.run.outputs == read.outputs && out.run.extractions == read.extractions
    ensures CheckPassed(job, k, run, out.reply.value, out.run)
  {
    SameReadings(job, job.artifact.steps[..k.index + 1], read, out.run);
    assert CheckedFrom(job, k, run, out.reply.value, out.run, seen, read.world);
  }

  /** What an accepted resume check is worth. */
  lemma AcceptedIsChecked<W(!new)>(job: Job<W>, k: Continuation<W>, run: Run<W>)
    requires k.index < |job.artifact.steps|
    ensures
      var out := ValidateResume(job, k, run);
      out.reply.Value? ==> CheckPassed(job, k, run, out.reply.value, out.run)
  {
    var seen, out := Observe(job, run), ValidateResume(job, k, run);
    if out.reply.Value? {
      CheckGoesOn(job, k, run);
      var read := ReadForCheck(job, k, seen.reply.value, seen.run);
      JudgedAfterReading(job, k, seen.reply.value, read.run, out);
      ReadingsFound(job, k, seen.reply.value, seen.run);
      PassedAfterReading(job, k, run, seen.reply.value, read.run, out);
    }
  }

  lemma {:induction false} OutputsCover(conditions: seq<Condition>, c: Condition)
    requires c in conditions
    ensures ConditionOutputs(c) <= OutputsOf(conditions)
  {
    if c != conditions[0] {
      OutputsCover(conditions[1..], c);
    }
  }

  lemma {:induction false} DetectorsAreJudged(outcomes: seq<Branch>, refs: seq<Id>, b: Branch)
    requires b in outcomes && b.code in refs
    ensures b.detect in DetectedAfter(outcomes, refs)
  {
    if b != outcomes[|outcomes| - 1] {
      DetectorsAreJudged(outcomes[..|outcomes| - 1], refs, b);
    }
  }

  /**
  Nothing is judged unread: a surface that lists the outputs it is asked for has every output read again that the
  check's conditions mention, be it the step's own conditions or the detectors of the outcomes it refers to.
  */
  lemma NothingIsJudgedUnread<W>(job: Job<W>, k: Continuation<W>)
    requires k.index < |job.artifact.steps|
    requires forall names: set<string> :: (set name | name in job.surface.order(names)) == names
    ensures
      var step, read := job.artifact.steps[k.index], set name | name in NamesNeeded(job, k);
      && (forall c <- (if k.retryStep then step.body.preconditions else step.body.postconditions) ::
            ConditionOutputs(c) <= read)
      && (forall b <- job.artifact.outcomes | b.code in step.outcomeRefs :: ConditionOutputs(b.detect) <= read)
  {
    var step := job.artifact.steps[k.index];
    var conditions := ResumeConditions(job.artifact, step, k.retryStep);
    forall c <- conditions ensures ConditionOutputs(c) <= OutputsOf(conditions) {
      OutputsCover(conditions, c);
    }
    forall b <- job.artifact.outcomes | b.code in step.outcomeRefs ensures b.detect in conditions {
      DetectorsAreJudged(job.artifact.outcomes, step.outcomeRefs, b);
    }
  }

  /**
  Until the check passes a paused run goes on nowhere: it stays paused at the same step with the lease it had, and
  nothing is handed to the surface for it.
  */
  lemma ResumptionIsEarned<W(!new)>(job: Job<W>, k: Continuation<W>, back: Handback<W>)
    requires k.index < |job.artifact.steps| && Known(job.artifact, job.artifact.steps[k.index])
    requires !exists outcome, after :: CheckPassed(job, k, Returned(k, back), outcome, after)
    ensures
      var end := Continue(job, k, back);
      && end.PausedAt? && end.kept == k.(run := end.kept.run)
      && end.kept.run.lease == k.run.lease && end.kept.run.dispatched == k.run.dispatched
  {
    AcceptedIsChecked(job, k, Returned(k, back));
  }

  // ---------------------------------------------------------------- whole runs

  lemma {:induction false} DriveExplained<W(!new)>(job: Job<W>, run: Run<W>, version: nat, index: nat,
                                                   first: (nat, nat))
    requires index <= |job.artifact.steps|
    ensures EndExplained(job, Drive(job, run, version, index, first))
    decreases Budget(job.artifact.recoveries, run.uses), |job.artifact.steps| - index
  {
    if index == |job.artifact.steps| {
      CompletionExplained(job, run);
    } else {
      var step, attempt := job.artifact.steps[index], AttemptAt(index, first);
      MainStepExplained(job, step, run, version, attempt);
      SettlementExplained(job, ExecuteMain(job, step, run, version, attempt), version, index);
      match DriveOnce(job, run, version, index, first) {
        case Over(_) =>
        case Next(run', version', index') => DriveExplained(job, run', version', index', first);
      }
    }
  }

  lemma OutcomeExplained<W(!new)>(job: Job<W>, k: Continuation<W>, run: Run<W>, checked: Out<W, Option<Id>>,
                                  version: nat)
    requires k.index < |job.artifact.steps| && checked.reply.Value? && checked.reply.value.Some?
    requires CheckPassed(job, k, run, checked.reply.value, checked.run)
    ensures ResultOfSome(job, BusinessOutcome(checked.reply.value.value), checked.run.(lease := Lease(version, true)))
  {
    var seen: Observation, from: W :| CheckedFrom(job, k, run, checked.reply.value, checked.run, seen, from);
    var step, final := job.artifact.steps[k.index], checked.run.(lease := Lease(version, true));
    assert RecordHolds(job, step, TextsOf(final.outputs), from, final.world);
    assert ResultExplained(job, step, BusinessOutcome(checked.reply.value.value), final, true);
  }

  lemma ResumptionExplained<W(!new)>(job: Job<W>, k: Continuation<W>, run: Run<W>, checked: Out<W, Option<Id>>,
                                     version: nat)
    requires k.index < |job.artifact.steps| && PauseIsExplained(job, k) && checked.run.uses == k.run.uses
    requires checked.reply.Value? ==> CheckPassed(job, k, run, checked.reply.value, checked.run)
    ensures EndExplained(job, Resume(job, k, checked, version))
  {
    if checked.reply.Value? {
      var held := checked.run.(lease := Lease(version, true));
      if checked.reply.value.Some? {
        OutcomeExplained(job, k, run, checked, version);
      } else {
        DriveExplained(job, held, version, StartAt(k), (k.index, k.retryAttempt));
      }
    }
  }

  lemma FirstSegmentExplained<W(!new)>(job: Job<W>, world: W)
    ensures EndExplained(job, Execute(job, world))
  {
    EvaluationExplained(job, job.artifact.preconditions, Begin(world));
    var ready := AllEvaluate(job, job.artifact.preconditions, Begin(world));
    if ready.reply == Value(true) {
      DriveExplained(job, ready.run, 1, 0, (0, 1));
    }
  }

  /**
  No run ends without a reason. A success carries the outputs held, with which the checkpoint came true in the last
  question asked and which fit the contract. An outcome was seen, alone among those its step refers to. A failure
  goes by the code of something the surface answered.
  */
  lemma {:induction false} EveryEndIsVerified<W(!new)>(job: Job<W>, world: W, backs: seq<Handback<W>>)
    ensures EndExplained(job, Life(job, world, backs))
  {
    if backs == [] {
      FirstSegmentExplained(job, world);
    } else {
      EveryEndIsVerified(job, world, backs[..|backs| - 1]);
      var before := Life(job, world, backs[..|backs| - 1]);
      if before.PausedAt? && before.kept.index < |job.artifact.steps| {
        var k, back := before.kept, backs[|backs| - 1];
        AcceptedIsChecked(job, k, Returned(k, back));
        ResumptionExplained(job, k, Returned(k, back), ValidateResume(job, k, Returned(k, back)), back.version);
      }
    }
  }
}
