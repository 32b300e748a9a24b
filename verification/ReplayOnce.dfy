/**
Exactly which main steps act at most once. An effect can be repeated in two ways: an error that denies it is
answered by a retry, or a recovery leads the run back. Where the artifact rules out both, no surface can make a
step act twice; where it does not, a scripted one does.
*/
module ReplayOnce {
  import opened Prelude
  import opened Capability
  import opened Replay
  import opened ReplayProofs
  import opened ReplayHonesty
  import opened ReplayStage
  import Discovery

  /** What a caller can read off the artifact: step `i` is neither retried nor led back to, or does not act at all. */
  predicate Single(a: Artifact, i: nat)
    requires i < |a.steps|
  {
    !Repeatable(a.steps[i]) && Unrevisited(a, i)
  }

  // ---------------------------------------------------------------- enough

  /** A single step takes effect at most once on every surface, over any number of handoffs. */
  lemma SingleActsOnce<W>(job: Job<W>, i: nat, world: W, backs: seq<Handback<W>>)
    requires Validated(job.artifact) && i < |job.artifact.steps| && Single(job.artifact, i)
    ensures multiset(RunOf(Life(job, world, backs)).effects)[job.artifact.steps[i].id] <= 1
  {
    EffectsHappenAtMostOnce(job, i, world, backs);
  }

  // ---------------------------------------------------------------- needed

  lemma StepsArePlayable(a: Artifact)
    requires Validated(a)
    ensures AllKnown(a) && (forall step <- a.steps :: Playable(a, step))
  {
    ValidatedIsKnown(a);
    forall step <- a.steps ensures Playable(a, step) {
      assert StepAllowed(a, step);
    }
  }

  /** The script that passes the artifact's preconditions and then follows `rest`. */
  function Opening(a: Artifact, rest: Script): Script {
    Trues(|a.preconditions|, rest)
  }

  lemma Opens(a: Artifact, error: SurfaceError, rest: Script) returns (run: Run<Script>)
    requires Validated(a) && AllKnown(a)
    ensures run.world == rest && run.lease == Lease(1, true) && run.uses == map[] && run.effects == []
    ensures Life(Staged(a, error), Opening(a, rest), []) == Drive(Staged(a, error), run, 1, 0, (0, 1))
  {
    var job, world := Staged(a, error), Opening(a, rest);
    TruesHold(job, error, a.preconditions, Begin(world), rest);
    ExecuteDrives(job, world);
    run := AllEvaluate(job, a.preconditions, Begin(world)).run;
  }

  /** Retrying is permitted on this error. */
  function Denial(code: string): SurfaceError {
    SurfaceError(code, true, true, false)
  }

  /** Retried: the invocation and the script under which step `i` takes effect, is denied, and takes effect again. */
  lemma RepeatableActsTwice(a: Artifact, i: nat)
    requires Validated(a) && i < |a.steps| && Repeatable(a.steps[i])
    ensures
      var job := Staged(a, Denial(a.steps[i].body.retry.retryOn[0]));
      var script := Opening(a, AllPassing(a.steps[..i], Striking(a.steps[i], 2)));
      multiset(RunOf(Life(job, script, [])).effects)[a.steps[i].id] >= 2
  {
    var error := Denial(a.steps[i].body.retry.retryOn[0]);
    StepsArePlayable(a);
    ValidatedIsApart(a);
    assert StepAllowed(a, a.steps[i]);
    assert a.steps[0..i] == a.steps[..i];
    var run := Opens(a, error, AllPassing(a.steps[..i], Striking(a.steps[i], 2)));
    DriveReaches(Staged(a, error), error, run, 1, 0, i, 2);
  }

  lemma {:induction false} IndexOfStep(steps: seq<Step>, k: nat)
    requires k < |steps| && Unique(StepIds(steps))
    ensures IndexOf(steps, steps[k].id) == Some(k)
  {
    var n := |steps| - 1;
    assert StepIds(steps[..n]) == StepIds(steps)[..n];
    if k < n {
      IndexOfStep(steps[..n], k);
      assert StepIds(steps)[k] != StepIds(steps)[n];
    }
  }

  lemma MainIdsDiffer(a: Artifact)
    requires Validated(a)
    ensures Unique(StepIds(a.steps))
  {
    ValidatedIsApart(a);
  }

  lemma ReferenceLeads(a: Artifact, j: nat, k: nat, x: nat)
    requires Validated(a) && j < |a.steps| && k < |a.steps| && x < |a.recoveries|
    requires a.recoveries[x].id in a.steps[j].recoveryRefs && a.recoveries[x].resumeAt == a.steps[k].id
    ensures Leads(a, j, a.recoveries[x], k)
  {
    var r := a.recoveries[x];
    StepsArePlayable(a);
    MainIdsDiffer(a);
    IndexOfStep(a.steps, k);
    TriggersAt(a.recoveries, x);
    assert StepAllowed(a, a.steps[j]);
    forall step <- r.steps ensures Playable(a, step) && step.recoveryRefs == [] {
      assert StepAllowed(a, step) && Known(a, step);
    }
  }

  /** Led back: the script under which step `i` takes effect, a recovery returns to it or before, and it acts again. */
  lemma RevisitedActsTwice(a: Artifact, error: SurfaceError, i: nat, j: nat, k: nat, x: nat)
    requires Validated(a) && k <= i <= j < |a.steps| && x < |a.recoveries| && a.steps[i].body.action.Operate?
    requires a.recoveries[x].id in a.steps[j].recoveryRefs && a.recoveries[x].resumeAt == a.steps[k].id
    ensures
      var script := Opening(a, AllPassing(a.steps[..j], SecondPass(a, i, j, a.recoveries[x], k)));
      multiset(RunOf(Life(Staged(a, error), script, [])).effects)[a.steps[i].id] >= 2
  {
    var r := a.recoveries[x];
    StepsArePlayable(a);
    ValidatedIsApart(a);
    ReferenceLeads(a, j, k, x);
    assert a.steps[0..j] == a.steps[..j];
    var run := Opens(a, error, AllPassing(a.steps[..j], SecondPass(a, i, j, r, k)));
    DriveReturns(Staged(a, error), error, run, 1, 0, i, j, r, k);
  }

  /** Where a step is not past, some recovery leads back to it or before. */
  lemma NotPast(a: Artifact, i: nat) returns (j: nat, k: nat, x: nat)
    requires i < |a.steps| && !Past(a, i)
    ensures k <= i <= j < |a.steps| && x < |a.recoveries|
    ensures a.recoveries[x].id in a.steps[j].recoveryRefs && a.recoveries[x].resumeAt == a.steps[k].id
  {
    j, k, x :| i <= j < |a.steps| && k <= i && x < |a.recoveries|
               && a.recoveries[x].id in a.steps[j].recoveryRefs && a.recoveries[x].resumeAt == a.steps[k].id;
  }

  // ---------------------------------------------------------------- the exact conditions

  /**
  A main step of a valid artifact takes effect at most once under every job, surface and sequence of handoffs if
  and only if it is single.
  */
  lemma StepActsOnceExactly(a: Artifact, i: nat)
    requires Validated(a) && i < |a.steps|
    ensures (forall job: Job<Script>, script, backs | job.artifact == a ::
               multiset(RunOf(Life(job, script, backs)).effects)[a.steps[i].id] <= 1)
            <==> Single(a, i)
  {
    if Single(a, i) {
      forall job: Job<Script>, script, backs | job.artifact == a
        ensures multiset(RunOf(Life(job, script, backs)).effects)[a.steps[i].id] <= 1
      {
        SingleActsOnce(job, i, script, backs);
      }
    } else if Repeatable(a.steps[i]) {
      RepeatableActsTwice(a, i);
    } else {
      var j, k, x := NotPast(a, i);
      RevisitedActsTwice(a, Plain("action_failed"), i, j, k, x);
    }
  }

  ghost predicate AllSingle(a: Artifact) {
    forall i :: 0 <= i < |a.steps| ==> Single(a, i)
  }

  /** A valid artifact acts at most once whatever the surface does if and only if all its main steps are single. */
  lemma ActsAtMostOnceExactly(a: Artifact)
    requires Validated(a)
    ensures (forall job: Job<Script>, script, backs | job.artifact == a ::
               AtMostOnce(a, RunOf(Life(job, script, backs)).effects))
            <==> AllSingle(a)
  {
    if AllSingle(a) {
      forall job: Job<Script>, script, backs, i: nat | job.artifact == a && i < |a.steps|
        ensures multiset(RunOf(Life(job, script, backs)).effects)[a.steps[i].id] <= 1
      {
        SingleActsOnce(job, i, script, backs);
      }
    } else {
      var i: nat :| i < |a.steps| && !Single(a, i);
      StepActsOnceExactly(a, i);
      var job: Job<Script>, script, backs :|
        job.artifact == a && multiset(RunOf(Life(job, script, backs)).effects)[a.steps[i].id] > 1;
      assert !AtMostOnce(a, RunOf(Life(job, script, backs)).effects);
    }
  }

  function Anywhere<W>(): W -> bool {
    _ => true
  }

  /** An error that is never retried leaves the scripted surface nothing to deny. */
  lemma ScriptIsHonest(job: Job<Script>, error: SurfaceError)
    requires job.surface == Scripted(error) && !error.recoverable
    ensures Honest(job, Anywhere())
  {
  }

  /**
  On surfaces that deny no effect, a main step takes effect at most once, over any number of handoffs, if and only
  if no recovery leads back to it; retries then do no harm.
  */
  lemma HonestStepActsOnceExactly(a: Artifact, i: nat)
    requires Validated(a) && i < |a.steps|
    ensures (forall job: Job<Script>, hot: Script -> bool, script, backs | job.artifact == a && Honest(job, hot) ::
               multiset(RunOf(Life(job, script, backs)).effects)[a.steps[i].id] <= 1)
            <==> Unrevisited(a, i)
  {
    if Unrevisited(a, i) {
      forall job: Job<Script>, hot: Script -> bool, script, backs | job.artifact == a && Honest(job, hot)
        ensures multiset(RunOf(Life(job, script, backs)).effects)[a.steps[i].id] <= 1
      {
        HonestSurfacesActAtMostOnce(job, hot, i, script, backs);
      }
    } else {
      var j, k, x := NotPast(a, i);
      var error := Plain("action_failed");
      ScriptIsHonest(Staged(a, error), error);
      RevisitedActsTwice(a, error, i, j, k, x);
    }
  }

  // ---------------------------------------------------------------- what discovery compiles

  /** The one error that compiled steps retry. */
  const COMPILED_RETRY := "target_temporarily_absent"

  lemma CompiledRetries(req: Discovery.Request, recordings: seq<Discovery.Recording>, x: Discovery.Completing,
                        a: Artifact)
    requires Discovery.Compile(req, recordings, x) == Some(a)
    ensures Validated(a) && a.recoveries == []
    ensures forall step <- a.steps :: step.body.retry.retryOn == [COMPILED_RETRY]
  {
  }

  lemma CompiledIsSingle(req: Discovery.Request, recordings: seq<Discovery.Recording>, x: Discovery.Completing,
                         a: Artifact, i: nat)
    requires Discovery.Compile(req, recordings, x) == Some(a) && i < |a.steps|
    ensures Validated(a) && (Single(a, i) <==> !a.steps[i].body.action.Operate?)
  {
    CompiledRetries(req, recordings, x, a);
    assert a.steps[i] in a.steps;
  }

  /** Of a freshly compiled capability exactly the steps that operate the surface can take effect twice. */
  lemma CompiledStepActsOnceExactly(req: Discovery.Request, recordings: seq<Discovery.Recording>,
                                    x: Discovery.Completing, a: Artifact, i: nat)
    requires Discovery.Compile(req, recordings, x) == Some(a) && i < |a.steps|
    ensures (forall job: Job<Script>, script, backs | job.artifact == a ::
               multiset(RunOf(Life(job, script, backs)).effects)[a.steps[i].id] <= 1)
            <==> !a.steps[i].body.action.Operate?
  {
    CompiledIsSingle(req, recordings, x, a, i);
    StepActsOnceExactly(a, i);
  }

  /** The surface never raises the error after an action or at a question about the page. */
  ghost predicate Silent<W(!new)>(s: Surface<W>, code: string) {
    && (forall w, action, t | s.execute(w, action, t).answer.Fails? ::
          s.execute(w, action, t).answer.failure.code != code)
    && (forall w, c, o | s.evaluate(w, c, o).0.Fails? :: s.evaluate(w, c, o).0.failure.code != code)
    && (forall w, c, o | s.waitUntil(w, c, o).0.Fails? :: s.waitUntil(w, c, o).0.failure.code != code)
    && (forall w | s.captureFrame(w).0.Fails? :: s.captureFrame(w).0.failure.code != code)
  }

  lemma SilentIsHonest<W(!new)>(job: Job<W>, code: string)
    requires (forall c | Retried(job.artifact, c) :: c == code) && Silent(job.surface, code)
    ensures Honest(job, Anywhere())
  {
  }

  lemma SilentActsAtMostOnce<W(!new)>(job: Job<W>, code: string, world: W, backs: seq<Handback<W>>)
    requires Validated(job.artifact) && Silent(job.surface, code)
    requires job.artifact.recoveries == [] && (forall step <- job.artifact.steps :: step.body.retry.retryOn == [code])
    ensures AtMostOnce(job.artifact, RunOf(Life(job, world, backs)).effects)
  {
    SilentIsHonest(job, code);
    forall i: nat | i < |job.artifact.steps|
      ensures multiset(RunOf(Life(job, world, backs)).effects)[job.artifact.steps[i].id] <= 1
    {
      HonestSurfacesActAtMostOnce(job, Anywhere(), i, world, backs);
    }
  }

  /** It acts at most once wherever that error is not raised, whatever other errors claim. */
  lemma CompiledActsAtMostOnce<W(!new)>(job: Job<W>, req: Discovery.Request, recordings: seq<Discovery.Recording>,
                                        x: Discovery.Completing, world: W, backs: seq<Handback<W>>)
    requires Discovery.Compile(req, recordings, x) == Some(job.artifact) && Silent(job.surface, COMPILED_RETRY)
    ensures AtMostOnce(job.artifact, RunOf(Life(job, world, backs)).effects)
  {
    CompiledRetries(req, recordings, x, job.artifact);
    SilentActsAtMostOnce(job, COMPILED_RETRY, world, backs);
  }
}
