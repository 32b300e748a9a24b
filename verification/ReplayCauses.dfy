/**
Why a step ends as it does, said on the surface's own answers: a step that is done acted and had everything it
promises confirmed since; any other end has its cause in what the surface answered.
*/
module ReplayCauses {
  import opened Prelude
  import opened Capability
  import opened Replay
  import opened ReplayProofs
  import opened ReplayGate

  // ---------------------------------------------------------------- since

  /** Whatever holds of a world still holds after any question. */
  ghost predicate Persists<W(!new)>(s: Surface<W>, hot: W -> bool) {
    && (forall w | hot(w) :: hot(s.observe(w).1) && hot(s.captureFrame(w).1))
    && (forall w, locator | hot(w) :: hot(s.resolve(w, locator).1))
    && (forall w, c, texts | hot(w) :: hot(s.evaluate(w, c, texts).1))
    && (forall w, c, texts | hot(w) :: hot(s.waitUntil(w, c, texts).1))
  }

  /** The world `b` was reached from `a` by asking questions only. */
  ghost predicate Since<W(!new)>(s: Surface<W>, a: W, b: W) {
    forall hot: W -> bool | Persists(s, hot) && hot(a) :: hot(b)
  }

  ghost predicate AnsweredAt<W(!new)>(s: Surface<W>, c: Condition, texts: Texts, answer: bool, from: W, w: W, to: W) {
    Since(s, from, w) && s.evaluate(w, c, texts).0 == Says(answer) && Since(s, s.evaluate(w, c, texts).1, to)
  }

  /** Asked about the condition between the two worlds, the surface gave this answer. */
  ghost predicate Answered<W(!new)>(s: Surface<W>, c: Condition, texts: Texts, answer: bool, from: W, to: W) {
    exists w: W :: AnsweredAt(s, c, texts, answer, from, w, to)
  }

  ghost predicate AwaitedAt<W(!new)>(s: Surface<W>, c: Condition, texts: Texts, from: W, w: W, to: W) {
    Since(s, from, w) && s.waitUntil(w, c, texts).0 == Says(true) && Since(s, s.waitUntil(w, c, texts).1, to)
  }

  /** Between the two worlds the condition was awaited, and came true. */
  ghost predicate Awaited<W(!new)>(s: Surface<W>, c: Condition, texts: Texts, from: W, to: W) {
    exists w: W :: AwaitedAt(s, c, texts, from, w, to)
  }

  lemma SinceEvaluated<W(!new)>(s: Surface<W>, w: W, c: Condition, texts: Texts)
    ensures Since(s, w, s.evaluate(w, c, texts).1) && Since(s, w, s.waitUntil(w, c, texts).1)
  {
  }

  lemma SinceSeen<W(!new)>(s: Surface<W>, w: W)
    ensures Since(s, w, s.observe(w).1) && Since(s, w, s.captureFrame(w).1)
  {
  }

  lemma SinceThen<W(!new)>(s: Surface<W>, a: W, b: W, c: W)
    requires Since(s, a, b) && Since(s, b, c)
    ensures Since(s, a, c)
  {
  }

  lemma AnsweredWithin<W(!new)>(s: Surface<W>, c: Condition, texts: Texts, answer: bool, a: W, from: W, to: W, b: W)
    requires Since(s, a, from) && Answered(s, c, texts, answer, from, to) && Since(s, to, b)
    ensures Answered(s, c, texts, answer, a, b)
  {
    var w :| AnsweredAt(s, c, texts, answer, from, w, to);
    SinceThen(s, a, from, w);
    SinceThen(s, s.evaluate(w, c, texts).1, to, b);
    assert AnsweredAt(s, c, texts, answer, a, w, b);
  }

  lemma AwaitedWithin<W(!new)>(s: Surface<W>, c: Condition, texts: Texts, a: W, from: W, to: W, b: W)
    requires Since(s, a, from) && Awaited(s, c, texts, from, to) && Since(s, to, b)
    ensures Awaited(s, c, texts, a, b)
  {
    var w :| AwaitedAt(s, c, texts, from, w, to);
    SinceThen(s, a, from, w);
    SinceThen(s, s.waitUntil(w, c, texts).1, to, b);
    assert AwaitedAt(s, c, texts, a, w, b);
  }

  lemma JustAnswered<W(!new)>(s: Surface<W>, c: Condition, texts: Texts, w: W)
    requires s.evaluate(w, c, texts).0.Says?
    ensures Answered(s, c, texts, s.evaluate(w, c, texts).0.said, w, s.evaluate(w, c, texts).1)
  {
    assert AnsweredAt(s, c, texts, s.evaluate(w, c, texts).0.said, w, w, s.evaluate(w, c, texts).1);
  }

  lemma JustAwaited<W(!new)>(s: Surface<W>, c: Condition, texts: Texts, w: W)
    requires s.waitUntil(w, c, texts).0 == Says(true)
    ensures Awaited(s, c, texts, w, s.waitUntil(w, c, texts).1)
  {
    assert AwaitedAt(s, c, texts, w, w, s.waitUntil(w, c, texts).1);
  }

  // ---------------------------------------------------------------- branches

  /** Of the referenced branches exactly those in `hits` answered yes, each between the two worlds. */
  ghost predicate Sorted<W(!new)>(s: Surface<W>, refs: seq<Id>, hits: seq<Id>, indexed: map<Id, Condition>,
                                  texts: Texts, from: W, to: W)
  {
    forall ref <- refs :: ref in indexed && Answered(s, indexed[ref], texts, ref in hits, from, to)
  }

  lemma {:induction false} MatchingSorts<W(!new)>(job: Job<W>, kind: Branching, refs: seq<Id>,
                                                  indexed: map<Id, Condition>, run: Run<W>)
    ensures
      var out := Matching(job, kind, refs, indexed, run);
      && Since(job.surface, run.world, out.run.world)
      && (out.reply.Value? ==>
            Sorted(job.surface, refs, out.reply.value, indexed, TextsOf(run.outputs), run.world, out.run.world))
  {
    if refs != [] && refs[0] in indexed {
      var s, texts, c := job.surface, TextsOf(run.outputs), indexed[refs[0]];
      var hit := Ask(job, kind, refs[0], c, run);
      SinceEvaluated(s, run.world, c, texts);
      if hit.reply.Value? {
        MatchingSorts(job, kind, refs[1..], indexed, hit.run);
        JustAnswered(s, c, texts, run.world);
        var rest := Matching(job, kind, refs[1..], indexed, hit.run);
        var out := Matching(job, kind, refs, indexed, run);
        assert out.run == rest.run;
        SinceThen(s, run.world, hit.run.world, rest.run.world);
        if out.reply.Value? {
          SortedMore(s, refs, hit.reply.value, rest.reply.value, out.reply.value, indexed, texts, run.world,
                     hit.run.world, rest.run.world);
        }
      }
    }
  }

  lemma SortedMore<W(!new)>(s: Surface<W>, refs: seq<Id>, hit: bool, rest: seq<Id>, hits: seq<Id>,
                            indexed: map<Id, Condition>, texts: Texts, a: W, b: W, c: W)
    requires refs != [] && refs[0] in indexed && Since(s, a, b) && Since(s, b, c)
    requires Answered(s, indexed[refs[0]], texts, hit, a, b)
    requires Sorted(s, refs[1..], rest, indexed, texts, b, c) && (forall id <- rest :: id in refs[1..])
    requires hits == if hit then [refs[0]] + rest else rest
    ensures Sorted(s, refs, hits, indexed, texts, a, c)
  {
    forall ref <- refs
      ensures ref in indexed && Answered(s, indexed[ref], texts, ref in hits, a, c)
    {
      if ref in refs[1..] && (ref in rest || ref != refs[0] || !hit) {
        AnsweredWithin(s, indexed[ref], texts, ref in rest, a, b, c, c);
      } else {
        AnsweredWithin(s, indexed[ref], texts, hit, a, a, b, c);
      }
    }
  }

  /** Which branch shows: the only one that answered yes, or none if all answered no. */
  lemma DetectedIsTheOnlyOne<W(!new)>(job: Job<W>, kind: Branching, refs: seq<Id>, indexed: map<Id, Condition>,
                                      run: Run<W>)
    ensures
      var out := Detect(job, kind, refs, indexed, run);
      && Since(job.surface, run.world, out.run.world)
      && (out.reply.Value? ==>
            && (out.reply.value.Some? ==> out.reply.value.value in refs)
            && forall ref <- refs ::
                 ref in indexed
                   && Answered(job.surface, indexed[ref], TextsOf(run.outputs), out.reply.value == Some(ref),
                                            run.world, out.run.world))
  {
    MatchingSorts(job, kind, refs, indexed, run);
    var hits := Matching(job, kind, refs, indexed, run).reply;
    if hits.Value? && |hits.value| == 1 {
      assert forall ref :: ref in hits.value <==> hits.value[0] == ref;
    }
  }

  /** Asked whether the branch shows, the surface gave this answer. */
  ghost predicate BranchAnswered<W(!new)>(s: Surface<W>, branches: seq<Branch>, code: Id, answer: bool, texts: Texts,
                                          from: W, to: W)
  {
    exists b <- branches :: b.code == code && Answered(s, b.detect, texts, answer, from, to)
  }

  /** The referenced branch `code` shows and no other one does. */
  ghost predicate OnlyBranch<W(!new)>(s: Surface<W>, branches: seq<Branch>, refs: seq<Id>, code: Id, texts: Texts,
                                      from: W, to: W)
  {
    code in refs && forall ref <- refs :: BranchAnswered(s, branches, ref, ref == code, texts, from, to)
  }

  ghost predicate NoBranch<W(!new)>(s: Surface<W>, branches: seq<Branch>, refs: seq<Id>, texts: Texts, from: W, to: W) {
    forall ref <- refs :: BranchAnswered(s, branches, ref, false, texts, from, to)
  }

  ghost predicate TriggerAnswered<W(!new)>(s: Surface<W>, recoveries: seq<Recovery>, id: Id, answer: bool,
                                           texts: Texts, from: W, to: W)
  {
    exists r <- recoveries :: r.id == id && Answered(s, r.trigger, texts, answer, from, to)
  }

  ghost predicate OnlyTrigger<W(!new)>(s: Surface<W>, recoveries: seq<Recovery>, refs: seq<Id>, id: Id, texts: Texts,
                                       from: W, to: W)
  {
    id in refs && forall ref <- refs :: TriggerAnswered(s, recoveries, ref, ref == id, texts, from, to)
  }

  ghost predicate NoTrigger<W(!new)>(s: Surface<W>, recoveries: seq<Recovery>, refs: seq<Id>, texts: Texts,
                                     from: W, to: W)
  {
    forall ref <- refs :: TriggerAnswered(s, recoveries, ref, false, texts, from, to)
  }

  lemma {:induction false} DetectorIsDeclared(branches: seq<Branch>, code: Id)
    requires code in Detectors(branches)
    ensures exists b <- branches :: b.code == code && b.detect == Detectors(branches)[code]
  {
    var last := branches[|branches| - 1];
    if last.code == code {
      assert last in branches;
    } else {
      DetectorIsDeclared(branches[..|branches| - 1], code);
    }
  }

  lemma {:induction false} TriggerIsDeclared(recoveries: seq<Recovery>, id: Id)
    requires id in Triggers(recoveries)
    ensures exists r <- recoveries :: r.id == id && r.trigger == Triggers(recoveries)[id]
  {
    var last := recoveries[|recoveries| - 1];
    if last.id == id {
      assert last in recoveries;
    } else {
      TriggerIsDeclared(recoveries[..|recoveries| - 1], id);
    }
  }

  lemma BranchIsAsked<W(!new)>(job: Job<W>, kind: Branching, branches: seq<Branch>, refs: seq<Id>, run: Run<W>)
    ensures
      var out := Detect(job, kind, refs, Detectors(branches), run);
      var s, texts, from, to := job.surface, TextsOf(run.outputs), run.world, out.run.world;
      && Since(s, from, to)
      && (out.reply.Value? ==>
            if out.reply.value.Some? then OnlyBranch(s, branches, refs, out.reply.value.value, texts, from, to)
            else NoBranch(s, branches, refs, texts, from, to))
  {
    DetectedIsTheOnlyOne(job, kind, refs, Detectors(branches), run);
    var out := Detect(job, kind, refs, Detectors(branches), run);
    if out.reply.Value? {
      forall ref <- refs
        ensures BranchAnswered(job.surface, branches, ref, out.reply.value == Some(ref), TextsOf(run.outputs),
                               run.world,
                               out.run.world)
      {
        DetectorIsDeclared(branches, ref);
      }
    }
  }

  lemma TriggerIsAsked<W(!new)>(job: Job<W>, recoveries: seq<Recovery>, refs: seq<Id>, run: Run<W>)
    ensures
      var out := Detect(job, Recoveries, refs, Triggers(recoveries), run);
      var s, texts, from, to := job.surface, TextsOf(run.outputs), run.world, out.run.world;
      && Since(s, from, to)
      && (out.reply.Value? ==>
            if out.reply.value.Some? then OnlyTrigger(s, recoveries, refs, out.reply.value.value, texts, from, to)
            else NoTrigger(s, recoveries, refs, texts, from, to))
  {
    DetectedIsTheOnlyOne(job, Recoveries, refs, Triggers(recoveries), run);
    var out := Detect(job, Recoveries, refs, Triggers(recoveries), run);
    if out.reply.Value? {
      forall ref <- refs
        ensures TriggerAnswered(job.surface, recoveries, ref, out.reply.value == Some(ref), TextsOf(run.outputs),
                                run.world, out.run.world)
      {
        TriggerIsDeclared(recoveries, ref);
      }
    }
  }

  // ---------------------------------------------------------------- the checks after an action

  lemma {:induction false} IdentityIsAwaited<W(!new)>(job: Job<W>, conditions: seq<Condition>, run: Run<W>)
    ensures
      var out := IdentityVerified(job, conditions, run);
      var s, texts, from, to := job.surface, TextsOf(run.outputs), run.world, out.run.world;
      && Since(s, from, to)
      && (out.reply == Value(true) ==>
            forall c <- conditions | ContainsIdentity(c) :: Awaited(s, c, texts, from, to))
  {
    if conditions != [] {
      var s, texts, c := job.surface, TextsOf(run.outputs), conditions[0];
      if !ContainsIdentity(c) {
        IdentityIsAwaited(job, conditions[1..], run);
      } else {
        var waited := WaitUntil(job, c, run);
        SinceEvaluated(s, run.world, c, texts);
        if waited.reply == Value(true) {
          IdentityIsAwaited(job, conditions[1..], waited.run);
          JustAwaited(s, c, texts, run.world);
          AllAwaitedSince(s, conditions, ContainsIdentity, texts, run.world, waited.run.world,
                          IdentityVerified(job, conditions[1..], waited.run).run.world,
                          IdentityVerified(job, conditions[1..], waited.run).reply.value);
        }
      }
    }
  }

  /** What came true first and what came true later came true. */
  lemma AllAwaitedSince<W(!new)>(s: Surface<W>, conditions: seq<Condition>, of: Condition -> bool, texts: Texts,
                                 a: W, b: W, c: W, rest: bool)
    requires conditions != [] && Since(s, a, b) && Since(s, b, c) && Awaited(s, conditions[0], texts, a, b)
    requires rest ==> forall p <- conditions[1..] | of(p) :: Awaited(s, p, texts, b, c)
    ensures Since(s, a, c)
    ensures rest ==> forall p <- conditions | of(p) :: Awaited(s, p, texts, a, c)
  {
    SinceThen(s, a, b, c);
    if rest {
      forall p <- conditions | of(p)
        ensures Awaited(s, p, texts, a, c)
      {
        if p in conditions[1..] {
          AwaitedWithin(s, p, texts, a, b, c, c);
        } else {
          AwaitedWithin(s, p, texts, a, a, b, c);
        }
      }
    }
  }

  predicate Plainly(c: Condition) {
    !ContainsIdentity(c)
  }

  // ---------------------------------------------------------------- causes

  /** Some question, in some world, failed with this error. */
  ghost predicate Complains<W(!new)>(s: Surface<W>, e: SurfaceError) {
    || (exists w :: s.observe(w).0 == Fails(e))
    || (exists w :: s.captureFrame(w).0 == Fails(e))
    || (exists w, locator :: s.resolve(w, locator).0 == Fails(e))
    || (exists w, c, texts :: s.evaluate(w, c, texts).0 == Fails(e))
    || (exists w, c, texts :: s.waitUntil(w, c, texts).0 == Fails(e))
    || (exists w, handle, action :: s.extract(w, handle, action).0 == Fails(e))
    || (exists w, action, handle :: s.execute(w, action, handle).answer == Fails(e))
    || (exists w, body, seen, handle :: s.policy(w, body, seen, handle) == Fails(e))
  }

  ghost predicate Shows<W(!new)>(s: Surface<W>, c: Condition) {
    exists w, texts :: s.evaluate(w, c, texts).0 == Says(true)
  }

  ghost predicate TwoShow<W(!new)>(s: Surface<W>, refs: seq<Id>, indexed: map<Id, Condition>) {
    exists i, j :: 0 <= i < j < |refs| && refs[i] in indexed && refs[j] in indexed
                   && Shows(s, indexed[refs[i]]) && Shows(s, indexed[refs[j]])
  }

  /** The condition an action is to establish by itself was answered no. */
  ghost predicate Contradicted<W(!new)>(s: Surface<W>, a: Artifact, action: Action) {
    match action
    case WaitFor(c) => exists w, texts :: s.waitUntil(w, c, texts).0 == Says(false)
    case Assert(c) => exists w, texts :: s.evaluate(w, c, texts).0 == Says(false)
    case CheckpointReached(_) => exists w, texts :: s.evaluate(w, a.checkpoint, texts).0 == Says(false)
    case _ => false
  }

  /** The surface raised the error, or the step met one of the situations that the engine makes into this error. */
  ghost predicate Complaint<W(!new)>(job: Job<W>, step: Step, e: SurfaceError) {
    var s, a, body := job.surface, job.artifact, step.body;
    || Complains(s, e)
    || (e == Plain("branch_ambiguous")
        && (|| TwoShow(s, step.outcomeRefs, Detectors(a.outcomes))
            || TwoShow(s, step.failureRefs, Detectors(a.failures))
            || TwoShow(s, step.recoveryRefs, Triggers(a.recoveries))))
    || (e == Plain("action_condition_mismatch") && Contradicted(s, a, body.action))
    || (e == Plain("target_absent") && body.action.Extract? && body.target.None?)
    || (exists w, handle, code: Option<string> :: s.execute(w, body.action, handle).answer == Says(NotCompleted(code))
                                  && e == Plain(if code.Some? then code.value else "action_failed"))
  }

  /** Each declared outcome of the step was asked about and did not show. */
  ghost predicate OutcomeFree<W(!new)>(job: Job<W>, step: Step) {
    exists texts: Texts, from: W, to: W ::
      NoBranch(job.surface, job.artifact.outcomes, step.outcomeRefs, texts, from, to)
  }

  ghost predicate FailureFree<W(!new)>(job: Job<W>, step: Step) {
    exists texts: Texts, from: W, to: W ::
      NoBranch(job.surface, job.artifact.failures, step.failureRefs, texts, from, to)
  }

  ghost predicate TriggerFree<W(!new)>(job: Job<W>, step: Step) {
    exists texts: Texts, from: W, to: W ::
      NoTrigger(job.surface, job.artifact.recoveries, step.recoveryRefs, texts, from, to)
  }

  /** A declared failure shows, alone, and no outcome does. */
  ghost predicate FailureSeen<W(!new)>(job: Job<W>, step: Step, code: string) {
    && OutcomeFree(job, step)
    && exists texts: Texts, from: W, to: W ::
         OnlyBranch(job.surface, job.artifact.failures, step.failureRefs, code, texts, from, to)
  }

  /** The record is not the right one; or a postcondition did not come true and no declared branch explains it. */
  ghost predicate Unmet<W(!new)>(job: Job<W>, step: Step, recover: bool) {
    var s, posts := job.surface, step.body.postconditions;
    || (exists c <- posts, w, texts :: ContainsIdentity(c) && s.waitUntil(w, c, texts).0 != Says(true))
    || (&& OutcomeFree(job, step) && FailureFree(job, step) && (recover ==> TriggerFree(job, step))
        && exists c <- posts, w, texts :: Plainly(c) && s.waitUntil(w, c, texts).0 != Says(true))
  }

  /** What may be behind a failure or a pause of the step by this code; an error is only if no recovery applies. */
  ghost predicate Caused<W(!new)>(job: Job<W>, step: Step, code: string, uses: map<Id, nat>, recover: bool) {
    var s, a, body := job.surface, job.artifact, step.body;
    || FailureSeen(job, step, code)
    || (code == "step_precondition_mismatch"
        && exists c <- body.preconditions, w, texts :: s.evaluate(w, c, texts).0 == Says(false))
    || (code == "postcondition_mismatch" && Unmet(job, step, recover))
    || (code == "policy_blocked" && exists w, seen, handle :: s.policy(w, body, seen, handle) == Says(Deny))
    || (exists w, seen, handle, reason ::
          s.policy(w, body, seen, handle) == Says(RequireApproval(reason))
          && code in {reason, "recovery_requires_human"})
    || (code == "recovery_exhausted"
        && exists r <- a.recoveries ::
          r.id in step.recoveryRefs && Uses(uses, r.id) >= r.maxUses && Shows(s, r.trigger))
    || ((recover ==> TriggerFree(job, step))
        && exists e: SurfaceError :: e.code == code && Complaint(job, step, e))
  }

  /** How checks that led from one world to another may end, other than well. */
  ghost predicate Explained<W(!new)>(job: Job<W>, step: Step, reply: Reply<StepEnd>, uses: map<Id, nat>, texts: Texts,
                                     from: W, to: W, recover: bool)
  {
    var s, a := job.surface, job.artifact;
    match reply
    case Crashed(_) => true
    case Raised(e) => Complaint(job, step, e)
    case Value(Done) => true
    case Value(Recover(id)) => recover && OnlyTrigger(s, a.recoveries, step.recoveryRefs, id, texts, from, to)
    case Value(Finished(Success(_))) => false
    case Value(Finished(BusinessOutcome(code))) => OnlyBranch(s, a.outcomes, step.outcomeRefs, code, texts, from, to)
    case Value(Finished(Failure(code, at))) => at == Some(step.id) && Caused(job, step, code, uses, recover)
    case Value(Finished(Intervention(code, at, _, _))) => at == step.id && Caused(job, step, code, uses, recover)
  }

  lemma {:induction false} HitsShow<W(!new)>(job: Job<W>, kind: Branching, refs: seq<Id>, indexed: map<Id, Condition>,
                                             run: Run<W>)
    ensures
      var out := Matching(job, kind, refs, indexed, run);
      && (out.reply.Raised? ==> Complains(job.surface, out.reply.error))
      && (out.reply.Value? && |out.reply.value| > 0 ==>
            exists i :: 0 <= i < |refs| && refs[i] in indexed && Shows(job.surface, indexed[refs[i]]))
      && (out.reply.Value? && |out.reply.value| > 1 ==> TwoShow(job.surface, refs, indexed))
  {
    if refs != [] && refs[0] in indexed {
      var hit := Ask(job, kind, refs[0], indexed[refs[0]], run);
      if hit.reply.Value? {
        HitsShow(job, kind, refs[1..], indexed, hit.run);
        var rest := Matching(job, kind, refs[1..], indexed, hit.run);
        if rest.reply.Value? && |rest.reply.value| > 0 {
          var i :| 0 <= i < |refs[1..]| && refs[1..][i] in indexed && Shows(job.surface, indexed[refs[1..][i]]);
          assert refs[i + 1] == refs[1..][i];
        }
        if rest.reply.Value? && |rest.reply.value| > 1 {
          var i, j :| 0 <= i < j < |refs[1..]| && refs[1..][i] in indexed && refs[1..][j] in indexed
            && Shows(job.surface, indexed[refs[1..][i]]) && Shows(job.surface, indexed[refs[1..][j]]);
          assert refs[i + 1] == refs[1..][i] && refs[j + 1] == refs[1..][j];
        }
      }
    }
  }

  /** The recovery that a branch check selects, or that there is none to select. */
  ghost predicate Selected<W(!new)>(job: Job<W>, step: Step, reply: Reply<Option<StepEnd>>, uses: map<Id, nat>,
                                    texts: Texts, from: W, to: W, allowed: bool)
  {
    match reply
    case Crashed(_) => true
    case Raised(e) => Complaint(job, step, e)
    case Value(None) => allowed ==> NoTrigger(job.surface, job.artifact.recoveries, step.recoveryRefs, texts, from, to)
    case Value(Some(end)) => !end.Done? && Explained(job, step, Value(end), uses, texts, from, to, allowed)
  }

  lemma SelectionExplained<W(!new)>(job: Job<W>, step: Step, run: Run<W>, allowed: bool)
    ensures
      var out := MaybeRecover(job, step, run, allowed);
      && Since(job.surface, run.world, out.run.world)
      && Selected(job, step, out.reply, run.uses, TextsOf(run.outputs), run.world, out.run.world, allowed)
  {
    if allowed {
      var recoveries := job.artifact.recoveries;
      TriggerIsAsked(job, recoveries, step.recoveryRefs, run);
      HitsShow(job, Recoveries, step.recoveryRefs, Triggers(recoveries), run);
      var hit := Detect(job, Recoveries, step.recoveryRefs, Triggers(recoveries), run);
      if hit.reply.Value? && hit.reply.value.Some? {
        DetectedIsTheOnlyOne(job, Recoveries, step.recoveryRefs, Triggers(recoveries), run);
        SpentIsExplained(job, step, hit.reply.value.value, run, hit.run, allowed);
      }
    }
  }

  lemma {:induction false} FoundTrigger(recoveries: seq<Recovery>, id: Id)
    ensures id in Triggers(recoveries) <==> FindRecovery(recoveries, id).Some?
    ensures id in Triggers(recoveries) ==> FindRecovery(recoveries, id).value.trigger == Triggers(recoveries)[id]
  {
    if recoveries != [] {
      FoundTrigger(recoveries[..|recoveries| - 1], id);
    }
  }

  lemma SpentIsExplained<W(!new)>(job: Job<W>, step: Step, id: Id, run: Run<W>, asked: Run<W>, recover: bool)
    requires id in step.recoveryRefs && id in Triggers(job.artifact.recoveries)
    requires Answered(job.surface, Triggers(job.artifact.recoveries)[id], TextsOf(run.outputs), true, run.world,
                      asked.world)
    ensures
      var found := FindRecovery(job.artifact.recoveries, id);
      found.Some? && Uses(run.uses, id) >= found.value.maxUses ==>
        Caused(job, step, "recovery_exhausted", run.uses, recover)
  {
    FoundTrigger(job.artifact.recoveries, id);
    var r := FindRecovery(job.artifact.recoveries, id).value;
    assert Shows(job.surface, r.trigger) by {
      var w :| AnsweredAt(job.surface, r.trigger, TextsOf(run.outputs), true, run.world, w, asked.world);
    }
  }

  lemma StopExplained<W(!new)>(job: Job<W>, step: Step, code: string, uses: map<Id, nat>, texts: Texts, from: W, to: W,
                               recover: bool)
    requires Caused(job, step, code, uses, recover)
    ensures Explained(job, step, Value(Fail(code, step)), uses, texts, from, to, recover)
  {
  }

  /** Failing or pausing over an error that has a cause. */
  lemma FailureExplained<W(!new)>(job: Job<W>, step: Step, error: SurfaceError, run: Run<W>, version: nat,
                                  dispatched: bool, attempt: nat, allow: bool, texts: Texts, from: W, to: W,
                                  recover: bool)
    requires Caused(job, step, error.code, run.uses, recover)
    ensures
      var out := SurfaceFailure(job, step, error, run, version, dispatched, attempt, allow);
      Explained(job, step, out.reply, run.uses, texts, from, to, recover) && !Concluded(out.reply)
  {
    var out := SurfaceFailure(job, step, error, run, version, dispatched, attempt, allow);
    if out.reply == Value(Fail(error.code, step)) {
      StopExplained(job, step, error.code, run.uses, texts, from, to, recover);
    } else {
      var seen := Observe(job, run);
      var decided := Replay.Judge(job, step.body, seen.reply.value, None, seen.run);
      if decided.reply == Value(Deny) {
        assert job.surface.policy(seen.run.world, step.body, seen.reply.value, None) == Says(Deny);
        StopExplained(job, step, "policy_blocked", run.uses, texts, from, to, recover);
      } else {
        assert out == Intervene(job, step, error.code, decided.run, version, !dispatched, attempt);
        PauseExplained(job, step, error.code, decided.run, version, !dispatched, attempt, texts, from, to, recover);
      }
    }
  }

  /**
  An error that is not retried pauses the run exactly if a human may be asked, the error calls for one, the page can
  still be observed and shown, policy does not deny the step there, and the lease has not expired.
  */
  lemma PausesExactly<W(!new)>(job: Job<W>, step: Step, error: SurfaceError, run: Run<W>, version: nat,
                               dispatched: bool, attempt: nat, allow: bool)
    requires run.lease == Lease(version, true)
    ensures
      var s := job.surface;
      var (seen, later) := s.observe(run.world);
      var (framed, last) := s.captureFrame(later);
      SurfaceFailure(job, step, error, run, version, dispatched, attempt, allow).reply
        == Value(Finished(Intervention(error.code, step.id, !dispatched, attempt)))
      <==>
      && allow && job.allowIntervention
      && (error.interventionRecommended || (error.code == "postcondition_mismatch" && dispatched)
          || error.code in ["target_absent", "target_ambiguous", "action_timeout", "action_failed"])
      && seen.Says? && s.policy(later, step.body, seen.said, None) !in [Says(Deny)]
      && s.policy(later, step.body, seen.said, None).Says? && framed.Says? && !s.leaseExpired(last)
  {
    var seen := Observe(job, run);
    if seen.reply.Value? {
      var decided := Replay.Judge(job, step.body, seen.reply.value, None, seen.run);
      if decided.reply.Value? && job.allowIntervention {
        PauseShown(job, step, error.code, decided.run, version, !dispatched, attempt);
      }
    }
  }

  lemma PauseShown<W(!new)>(job: Job<W>, step: Step, code: string, run: Run<W>, version: nat, retryStep: bool,
                            attempt: nat)
    requires run.lease == Lease(version, true) && job.allowIntervention
    ensures
      var (framed, last) := job.surface.captureFrame(run.world);
      Intervene(job, step, code, run, version, retryStep, attempt).reply
        == Value(Finished(Intervention(code, step.id, retryStep, attempt)))
      <==> framed.Says? && !job.surface.leaseExpired(last)
  {
    var frame := CaptureFrame(job, run);
    var (framed, later) := job.surface.captureFrame(run.world);
    assert frame == Out(Reported(framed), run.(world := later));
    if framed.Says? {
      var held := AssertCanAct(job, frame.run, version);
      assert Intervene(job, step, code, run, version, retryStep, attempt)
          == if held.reply.Crashed? then Out(Crashed(held.reply.crash), held.run)
             else Out(Value(Finished(Intervention(code, step.id, retryStep, attempt))),
                      held.run.(lease := Lease(version + 1, false)));
    }
  }

  lemma PauseExplained<W(!new)>(job: Job<W>, step: Step, code: string, run: Run<W>, version: nat, retryStep: bool,
                                attempt: nat, texts: Texts, from: W, to: W, recover: bool)
    requires Caused(job, step, code, run.uses, recover)
    ensures
      var out := Intervene(job, step, code, run, version, retryStep, attempt);
      Explained(job, step, out.reply, run.uses, texts, from, to, recover) && !Concluded(out.reply)
  {
  }

  lemma ExplainedSince<W(!new)>(job: Job<W>, step: Step, reply: Reply<StepEnd>, uses: map<Id, nat>, texts: Texts,
                                a: W, from: W, to: W, recover: bool)
    requires Since(job.surface, a, from) && Explained(job, step, reply, uses, texts, from, to, recover)
    ensures Explained(job, step, reply, uses, texts, a, to, recover)
  {
    match reply
    case Value(Recover(id)) =>
      forall ref <- step.recoveryRefs
        ensures TriggerAnswered(job.surface, job.artifact.recoveries, ref, ref == id, texts, a, to)
      {
        var r :| r in job.artifact.recoveries && r.id == ref
          && Answered(job.surface, r.trigger, texts, ref == id, from, to);
        AnsweredWithin(job.surface, r.trigger, texts, ref == id, a, from, to, to);
      }
    case Value(Finished(BusinessOutcome(code))) =>
      forall ref <- step.outcomeRefs
        ensures BranchAnswered(job.surface, job.artifact.outcomes, ref, ref == code, texts, a, to)
      {
        var b :| b in job.artifact.outcomes && b.code == ref
          && Answered(job.surface, b.detect, texts, ref == code, from, to);
        AnsweredWithin(job.surface, b.detect, texts, ref == code, a, from, to, to);
      }
    case _ =>
  }

  lemma NoBranchWithin<W(!new)>(s: Surface<W>, branches: seq<Branch>, refs: seq<Id>, texts: Texts, a: W, from: W, to: W,
                                b: W)
    requires Since(s, a, from) && NoBranch(s, branches, refs, texts, from, to) && Since(s, to, b)
    ensures NoBranch(s, branches, refs, texts, a, b)
  {
    forall ref <- refs
      ensures BranchAnswered(s, branches, ref, false, texts, a, b)
    {
      var branch :| branch in branches && branch.code == ref && Answered(s, branch.detect, texts, false, from, to);
      AnsweredWithin(s, branch.detect, texts, false, a, from, to, b);
    }
  }

  lemma NoTriggerWithin<W(!new)>(s: Surface<W>, recoveries: seq<Recovery>, refs: seq<Id>, texts: Texts, a: W, from: W,
                                 to: W, b: W)
    requires Since(s, a, from) && NoTrigger(s, recoveries, refs, texts, from, to) && Since(s, to, b)
    ensures NoTrigger(s, recoveries, refs, texts, a, b)
  {
    forall ref <- refs
      ensures TriggerAnswered(s, recoveries, ref, false, texts, a, b)
    {
      var r :| r in recoveries && r.id == ref && Answered(s, r.trigger, texts, false, from, to);
      AnsweredWithin(s, r.trigger, texts, false, a, from, to, b);
    }
  }

  lemma FailureBranchCauses<W(!new)>(job: Job<W>, step: Step, run: Run<W>, recover: bool)
    requires OutcomeFree(job, step)
    ensures
      var out := Detect(job, Failures, step.failureRefs, Detectors(job.artifact.failures), run);
      && (out.reply.Raised? ==> Complaint(job, step, out.reply.error))
      && (out.reply.Value? && out.reply.value.Some? ==> Caused(job, step, out.reply.value.value, run.uses, recover))
      && (out.reply == Value(None) ==> FailureFree(job, step))
  {
    var failures := job.artifact.failures;
    HitsShow(job, Failures, step.failureRefs, Detectors(failures), run);
    BranchIsAsked(job, Failures, failures, step.failureRefs, run);
    var out := Detect(job, Failures, step.failureRefs, Detectors(failures), run);
    if out.reply.Value? && out.reply.value.Some? {
      assert FailureSeen(job, step, out.reply.value.value);
    }
  }

  lemma OutcomeComplains<W(!new)>(job: Job<W>, step: Step, run: Run<W>)
    ensures
      var out := Detect(job, Outcomes, step.outcomeRefs, Detectors(job.artifact.outcomes), run);
      out.reply.Raised? ==> Complaint(job, step, out.reply.error)
  {
    HitsShow(job, Outcomes, step.outcomeRefs, Detectors(job.artifact.outcomes), run);
  }

  lemma UnconfirmedExplained<W(!new)>(job: Job<W>, step: Step, run: Run<W>, version: nat, attempt: nat, recover: bool,
                                      allow: bool)
    requires OutcomeFree(job, step)
    requires exists c <- step.body.postconditions, w, texts ::
               Plainly(c) && job.surface.waitUntil(w, c, texts).0 != Says(true)
    ensures
      var out := Unconfirmed(job, step, run, version, attempt, recover, allow);
      && Explained(job, step, out.reply, run.uses, TextsOf(run.outputs), run.world, out.run.world, recover)
      && !Concluded(out.reply)
  {
    SelectionExplained(job, step, run, recover);
    var selected := MaybeRecover(job, step, run, recover);
    var out := Unconfirmed(job, step, run, version, attempt, recover, allow);
    if selected.reply == Value(None) {
      assert recover ==> TriggerFree(job, step);
      assert out == GiveIn(job, step, selected.run, version, attempt, recover, allow);
      GivingInExplained(job, step, selected.run, version, attempt, recover, allow, TextsOf(run.outputs), run.world,
                        out.run.world);
    }
  }

  lemma GivingInExplained<W(!new)>(job: Job<W>, step: Step, run: Run<W>, version: nat, attempt: nat, recover: bool,
                                   allow: bool, texts: Texts, from: W, to: W)
    requires OutcomeFree(job, step) && (recover ==> TriggerFree(job, step))
    requires exists c <- step.body.postconditions, w, texts ::
               Plainly(c) && job.surface.waitUntil(w, c, texts).0 != Says(true)
    ensures
      var out := GiveIn(job, step, run, version, attempt, recover, allow);
      Explained(job, step, out.reply, run.uses, texts, from, to, recover) && !Concluded(out.reply)
  {
    FailureBranchCauses(job, step, run, recover);
    var failure := Detect(job, Failures, step.failureRefs, Detectors(job.artifact.failures), run);
    if failure.reply == Value(None) {
      assert Unmet(job, step, recover);
      FailureExplained(job, step, Plain("postcondition_mismatch"), failure.run, version, step.body.action.Operate?,
                       attempt, allow, texts, from, to, recover);
    }
  }

  /** The checks came to the end that the step is done, or that one of its outcomes shows. */
  predicate Concluded(reply: Reply<StepEnd>) {
    reply.Value? && (reply.value.Done? || (reply.value.Finished? && reply.value.result.BusinessOutcome?))
  }

  ghost predicate CleanlyAt<W(!new)>(job: Job<W>, step: Step, c: Condition, texts: Texts, from: W, mid: W, to: W) {
    && Awaited(job.surface, c, texts, from, mid)
    && NoBranch(job.surface, job.artifact.outcomes, step.outcomeRefs, texts, mid, to)
  }

  /** The condition came true, and no outcome of the step showed after that. */
  ghost predicate Cleanly<W(!new)>(job: Job<W>, step: Step, c: Condition, texts: Texts, from: W, to: W) {
    exists mid: W :: CleanlyAt(job, step, c, texts, from, mid, to)
  }

  lemma CleanlyWithin<W(!new)>(job: Job<W>, step: Step, c: Condition, texts: Texts, a: W, from: W, to: W, b: W)
    requires Since(job.surface, a, from) && Cleanly(job, step, c, texts, from, to) && Since(job.surface, to, b)
    ensures Cleanly(job, step, c, texts, a, b)
  {
    var mid: W :| CleanlyAt(job, step, c, texts, from, mid, to);
    assert Since(job.surface, mid, mid);
    AwaitedWithin(job.surface, c, texts, a, from, mid, mid);
    NoBranchWithin(job.surface, job.artifact.outcomes, step.outcomeRefs, texts, mid, mid, to, b);
    assert CleanlyAt(job, step, c, texts, a, mid, b);
  }

  /** Each of the conditions that are no identity checks came true, and after each no outcome showed. */
  ghost predicate AllCleanly<W(!new)>(job: Job<W>, step: Step, conditions: seq<Condition>, texts: Texts, from: W, to: W)
  {
    forall c <- conditions | Plainly(c) ::
      Awaited(job.surface, c, texts, from, to) && Cleanly(job, step, c, texts, from, to)
  }

  /** How the loop over the postconditions may end. */
  ghost predicate LoopExplained<W(!new)>(job: Job<W>, step: Step, conditions: seq<Condition>, out: Out<W, StepEnd>,
                                         uses: map<Id, nat>, texts: Texts, from: W, recover: bool)
  {
    && Explained(job, step, out.reply, uses, texts, from, out.run.world, recover)
    && (Concluded(out.reply) ==> Since(job.surface, from, out.run.world))
    && (out.reply == Value(Done) ==> AllCleanly(job, step, conditions, texts, from, out.run.world))
  }

  lemma {:induction false} ConfirmExplained<W(!new)>(job: Job<W>, step: Step, conditions: seq<Condition>, run: Run<W>,
                                                     version: nat, attempt: nat, recover: bool, allow: bool)
    requires forall c <- conditions :: c in step.body.postconditions
    ensures LoopExplained(job, step, conditions, Confirm(job, step, conditions, run, version, attempt, recover, allow),
                          run.uses, TextsOf(run.outputs), run.world, recover)
    decreases |conditions|
  {
    if conditions != [] {
      var s, texts, c := job.surface, TextsOf(run.outputs), conditions[0];
      var out := Confirm(job, step, conditions, run, version, attempt, recover, allow);
      if !Plainly(c) {
        ConfirmExplained(job, step, conditions[1..], run, version, attempt, recover, allow);
      } else {
        var waited := WaitUntil(job, c, run);
        SinceEvaluated(s, run.world, c, texts);
        if waited.reply.Value? {
          OutcomeComplains(job, step, waited.run);
          BranchIsAsked(job, Outcomes, job.artifact.outcomes, step.outcomeRefs, waited.run);
          var outcome := Detect(job, Outcomes, step.outcomeRefs, Detectors(job.artifact.outcomes), waited.run);
          SinceThen(s, run.world, waited.run.world, outcome.run.world);
          if outcome.reply == Value(None) && waited.reply.value {
            ConfirmExplained(job, step, conditions[1..], outcome.run, version, attempt, recover, allow);
            JustAwaited(s, c, texts, run.world);
            ConfirmedMore(job, step, conditions, run.world, waited.run.world, outcome.run.world, out, run.uses, texts,
                          recover);
          } else if outcome.reply == Value(None) {
            assert Plainly(c) && job.surface.waitUntil(run.world, c, texts).0 != Says(true);
            UnconfirmedExplained(job, step, outcome.run, version, attempt, recover, allow);
            ExplainedSince(job, step, out.reply, run.uses, texts, run.world, outcome.run.world, out.run.world, recover);
          } else {
            ExplainedSince(job, step, out.reply, run.uses, texts, run.world, waited.run.world, out.run.world, recover);
          }
        }
      }
    }
  }

  lemma ConfirmedMore<W(!new)>(job: Job<W>, step: Step, conditions: seq<Condition>, a: W, waited: W, b: W,
                               out: Out<W, StepEnd>, uses: map<Id, nat>, texts: Texts, recover: bool)
    requires conditions != [] && Awaited(job.surface, conditions[0], texts, a, waited)
    requires NoBranch(job.surface, job.artifact.outcomes, step.outcomeRefs, texts, waited, b)
    requires Since(job.surface, a, waited) && Since(job.surface, waited, b)
    requires LoopExplained(job, step, conditions[1..], out, uses, texts, b, recover)
    ensures LoopExplained(job, step, conditions, out, uses, texts, a, recover)
  {
    SinceThen(job.surface, a, waited, b);
    ExplainedSince(job, step, out.reply, uses, texts, a, b, out.run.world, recover);
    if Concluded(out.reply) {
      SinceThen(job.surface, a, b, out.run.world);
    }
    if out.reply == Value(Done) {
      AwaitedWithin(job.surface, conditions[0], texts, a, a, waited, b);
      AllAwaitedSince(job.surface, conditions, Plainly, texts, a, b, out.run.world, true);
      forall c <- conditions | Plainly(c)
        ensures Cleanly(job, step, c, texts, a, out.run.world)
      {
        if c in conditions[1..] {
          assert Since(job.surface, out.run.world, out.run.world);
          CleanlyWithin(job, step, c, texts, a, b, out.run.world, out.run.world);
        } else {
          assert CleanlyAt(job, step, c, texts, a, waited, b) && Since(job.surface, a, a);
          CleanlyWithin(job, step, c, texts, a, a, b, out.run.world);
        }
      }
    }
  }

  /** No declared branch of the step showed. */
  ghost predicate Unbranched<W(!new)>(job: Job<W>, step: Step, texts: Texts, from: W, to: W, recover: bool) {
    var s, a := job.surface, job.artifact;
    && NoBranch(s, a.outcomes, step.outcomeRefs, texts, from, to)
    && NoBranch(s, a.failures, step.failureRefs, texts, from, to)
    && (recover ==> NoTrigger(s, a.recoveries, step.recoveryRefs, texts, from, to))
  }

  lemma EarlyExplained<W(!new)>(job: Job<W>, step: Step, run: Run<W>, recover: bool)
    ensures
      var out := EarlyBranch(job, step, run, recover);
      var texts, from, to := TextsOf(run.outputs), run.world, out.run.world;
      && Explained(job, step, out.reply, run.uses, texts, from, to, recover)
      && (Concluded(out.reply) ==> Since(job.surface, from, to))
      && (out.reply == Value(Done) ==> Unbranched(job, step, texts, from, to, recover))
  {
    var s, a, texts := job.surface, job.artifact, TextsOf(run.outputs);
    OutcomeComplains(job, step, run);
    BranchIsAsked(job, Outcomes, a.outcomes, step.outcomeRefs, run);
    var outcome := Detect(job, Outcomes, step.outcomeRefs, Detectors(a.outcomes), run);
    if outcome.reply == Value(None) {
      FailureBranchCauses(job, step, outcome.run, recover);
      BranchIsAsked(job, Failures, a.failures, step.failureRefs, outcome.run);
      var failure := Detect(job, Failures, step.failureRefs, Detectors(a.failures), outcome.run);
      if failure.reply == Value(None) {
        SelectionExplained(job, step, failure.run, recover);
        var selected := MaybeRecover(job, step, failure.run, recover);
        SinceThen(s, run.world, outcome.run.world, failure.run.world);
        SinceThen(s, run.world, failure.run.world, selected.run.world);
        var out := EarlyBranch(job, step, run, recover);
        if selected.reply == Value(None) {
          assert Since(s, run.world, run.world);
          SinceThen(s, outcome.run.world, failure.run.world, selected.run.world);
          NoBranchWithin(s, a.outcomes, step.outcomeRefs, texts, run.world, run.world, outcome.run.world,
                         selected.run.world);
          NoBranchWithin(s, a.failures, step.failureRefs, texts, run.world, outcome.run.world, failure.run.world,
                         selected.run.world);
          if recover {
            NoTriggerWithin(s, a.recoveries, step.recoveryRefs, texts, run.world, failure.run.world,
                            selected.run.world, selected.run.world);
          }
        } else if selected.reply.Value? {
          ExplainedSince(job, step, out.reply, run.uses, texts, run.world, failure.run.world, out.run.world, recover);
        }
      }
    }
  }

  /** The record is the right one: each check of its identity came true. */
  ghost predicate RightRecord<W(!new)>(job: Job<W>, step: Step, texts: Texts, from: W, to: W) {
    forall c <- step.body.postconditions | ContainsIdentity(c) :: Awaited(job.surface, c, texts, from, to)
  }

  /** Every postcondition came true between the two worlds, and no declared branch of the step showed. */
  ghost predicate Confirmed<W(!new)>(job: Job<W>, step: Step, texts: Texts, from: W, to: W, recover: bool) {
    && Since(job.surface, from, to) && Unbranched(job, step, texts, from, to, recover)
    && RightRecord(job, step, texts, from, to) && AllCleanly(job, step, step.body.postconditions, texts, from, to)
  }

  lemma IdentityCauses<W(!new)>(job: Job<W>, conditions: seq<Condition>, run: Run<W>)
    requires IdentityVerified(job, conditions, run).reply == Value(false)
    ensures exists c <- conditions, w, texts ::
              ContainsIdentity(c) && job.surface.waitUntil(w, c, texts).0 != Says(true)
  {
    var c := conditions[0];
    if ContainsIdentity(c) {
      var waited := WaitUntil(job, c, run);
      assert waited.reply == Reported(job.surface.waitUntil(run.world, c, TextsOf(run.outputs)).0);
      if waited.reply == Value(true) {
        IdentityCauses(job, conditions[1..], waited.run);
      }
    } else {
      IdentityCauses(job, conditions[1..], run);
    }
  }

  /** How the checks after an action may end; an outcome is no excuse for a wrong record. */
  ghost predicate ChecksExplained<W(!new)>(job: Job<W>, step: Step, out: Out<W, StepEnd>, uses: map<Id, nat>,
                                           texts: Texts, from: W, recover: bool)
  {
    && Explained(job, step, out.reply, uses, texts, from, out.run.world, recover)
    && (Concluded(out.reply) ==> RightRecord(job, step, texts, from, out.run.world))
    && (out.reply == Value(Done) ==> Confirmed(job, step, texts, from, out.run.world, recover))
  }

  lemma VerifyExplained<W(!new)>(job: Job<W>, step: Step, run: Run<W>, version: nat, attempt: nat, recover: bool,
                                 allow: bool)
    ensures ChecksExplained(job, step, Verify(job, step, run, version, attempt, recover, allow), run.uses,
                            TextsOf(run.outputs), run.world, recover)
  {
    var s, texts, conditions := job.surface, TextsOf(run.outputs), step.body.postconditions;
    var out := Verify(job, step, run, version, attempt, recover, allow);
    IdentityIsAwaited(job, conditions, run);
    var identity := IdentityVerified(job, conditions, run);
    if !identity.reply.value {
      IdentityCauses(job, conditions, run);
      assert Unmet(job, step, recover);
    } else {
      EarlyExplained(job, step, identity.run, recover);
      var early := EarlyBranch(job, step, identity.run, recover);
      if early.reply == Value(Done) {
        ConfirmExplained(job, step, conditions, early.run, version, attempt, recover, allow);
        assert out == Confirm(job, step, conditions, early.run, version, attempt, recover, allow);
        ChecksConfirm(job, step, out, run.uses, texts, run.world, identity.run.world, early.run.world, recover);
      } else {
        assert early.reply.Value? ==> out == early;
        EarlyEnds(job, step, out, run.uses, texts, run.world, identity.run.world, recover);
      }
    }
  }

  lemma EarlyEnds<W(!new)>(job: Job<W>, step: Step, out: Out<W, StepEnd>, uses: map<Id, nat>, texts: Texts, a: W, b: W,
                           recover: bool)
    requires Since(job.surface, a, b) && Explained(job, step, out.reply, uses, texts, b, out.run.world, recover)
    requires RightRecord(job, step, texts, a, b) && out.reply != Value(Done)
    requires Concluded(out.reply) ==> Since(job.surface, b, out.run.world)
    ensures ChecksExplained(job, step, out, uses, texts, a, recover)
  {
    ExplainedSince(job, step, out.reply, uses, texts, a, b, out.run.world, recover);
    if Concluded(out.reply) {
      RecordStaysRight(job, step, texts, a, b, out.run.world);
    }
  }

  lemma RecordStaysRight<W(!new)>(job: Job<W>, step: Step, texts: Texts, a: W, b: W, c: W)
    requires RightRecord(job, step, texts, a, b) && Since(job.surface, b, c)
    ensures RightRecord(job, step, texts, a, c)
  {
    assert Since(job.surface, a, a);
    forall p <- step.body.postconditions | ContainsIdentity(p)
      ensures Awaited(job.surface, p, texts, a, c)
    {
      AwaitedWithin(job.surface, p, texts, a, a, b, c);
    }
  }

  lemma ChecksConfirm<W(!new)>(job: Job<W>, step: Step, out: Out<W, StepEnd>, uses: map<Id, nat>, texts: Texts, a: W,
                               b: W, c: W, recover: bool)
    requires Since(job.surface, a, b) && Since(job.surface, b, c)
    requires RightRecord(job, step, texts, a, b) && Unbranched(job, step, texts, b, c, recover)
    requires LoopExplained(job, step, step.body.postconditions, out, uses, texts, c, recover)
    ensures ChecksExplained(job, step, out, uses, texts, a, recover)
  {
    var d := out.run.world;
    SinceThen(job.surface, a, b, c);
    ExplainedSince(job, step, out.reply, uses, texts, a, c, d, recover);
    if Concluded(out.reply) {
      SinceThen(job.surface, b, c, d);
      RecordStaysRight(job, step, texts, a, b, d);
    }
    if out.reply == Value(Done) {
      SinceThen(job.surface, a, c, d);
      BranchesStayAway(job, step, texts, a, b, c, d, recover);
      assert Since(job.surface, d, d);
      forall p <- step.body.postconditions | Plainly(p)
        ensures Awaited(job.surface, p, texts, a, d) && Cleanly(job, step, p, texts, a, d)
      {
        AwaitedWithin(job.surface, p, texts, a, c, d, d);
        CleanlyWithin(job, step, p, texts, a, c, d, d);
      }
    }
  }

  lemma BranchesStayAway<W(!new)>(job: Job<W>, step: Step, texts: Texts, a: W, b: W, c: W, d: W, recover: bool)
    requires Since(job.surface, a, b) && Unbranched(job, step, texts, b, c, recover) && Since(job.surface, c, d)
    ensures Unbranched(job, step, texts, a, d, recover)
  {
    var s, art := job.surface, job.artifact;
    NoBranchWithin(s, art.outcomes, step.outcomeRefs, texts, a, b, c, d);
    NoBranchWithin(s, art.failures, step.failureRefs, texts, a, b, c, d);
    if recover {
      NoTriggerWithin(s, art.recoveries, step.recoveryRefs, texts, a, b, c, d);
    }
  }

  // ---------------------------------------------------------------- a whole attempt

  ghost predicate Last<W>(deeds: seq<Deed<W>>, step: Step) {
    |deeds| > 0 && deeds[|deeds| - 1].id == step.id && deeds[|deeds| - 1].body == step.body
  }

  /** The step's action went through and left the world `acted`, as the latest deed of the run records. */
  ghost predicate ActedAs<W(!new)>(job: Job<W>, step: Step, run: Run<W>, acted: W) {
    var s, texts := job.surface, TextsOf(run.outputs);
    match step.body.action
    case Operate(_, _) =>
      && Last(run.dispatched, step)
      && var d := run.dispatched[|run.dispatched| - 1];
      && s.execute(d.world, step.body.action, d.target).answer == Says(Completed)
      && s.execute(d.world, step.body.action, d.target).world == acted
    case Extract(name, _) =>
      && Last(run.extractions, step)
      && var d := run.extractions[|run.extractions| - 1];
      && d.target.Some? && name in run.outputs
      && s.extract(d.world, d.target.value, step.body.action) == (Says(run.outputs[name].text), acted)
    case WaitFor(c) => exists w :: s.waitUntil(w, c, texts) == (Says(true), acted)
    case Assert(c) => exists w :: s.evaluate(w, c, texts) == (Says(true), acted)
    case CheckpointReached(_) => exists w :: s.evaluate(w, job.artifact.checkpoint, texts) == (Says(true), acted)
  }

  /** How performing the action may end. */
  ghost predicate ActionExplained<W(!new)>(job: Job<W>, step: Step, out: Out<W, ()>) {
    && (out.reply.Raised? ==> Complaint(job, step, out.reply.error))
    && (out.reply.Value? ==> ActedAs(job, step, out.run, out.run.world))
  }

  lemma OperationExplained<W(!new)>(job: Job<W>, step: Step, target: Option<string>, run: Run<W>)
    requires step.body.action.Operate?
    ensures ActionExplained(job, step, Perform(job, step, target, run))
  {
  }

  lemma ExtractionExplained<W(!new)>(job: Job<W>, step: Step, target: Option<string>, run: Run<W>)
    requires step.body.action.Extract? && (target.Some? <==> step.body.target.Some?)
    ensures ActionExplained(job, step, Perform(job, step, target, run))
  {
  }

  lemma PerformExplained<W(!new)>(job: Job<W>, step: Step, target: Option<string>, run: Run<W>)
    requires target.Some? <==> step.body.target.Some?
    ensures ActionExplained(job, step, Perform(job, step, target, run))
  {
    if step.body.action.Operate? {
      OperationExplained(job, step, target, run);
    } else if step.body.action.Extract? {
      ExtractionExplained(job, step, target, run);
    }
  }

  lemma {:induction false} EvaluationExplained<W(!new)>(job: Job<W>, conditions: seq<Condition>, run: Run<W>)
    ensures
      var reply := AllEvaluate(job, conditions, run).reply;
      && (reply.Raised? ==> Complains(job.surface, reply.error))
      && (reply == Value(false) ==>
            exists c <- conditions, w, texts :: job.surface.evaluate(w, c, texts).0 == Says(false))
  {
    if conditions != [] {
      var first := Evaluate(job, conditions[0], run);
      assert first.reply == Reported(job.surface.evaluate(run.world, conditions[0], TextsOf(run.outputs)).0);
      if first.reply == Value(true) {
        EvaluationExplained(job, conditions[1..], first.run);
      }
    }
  }

  lemma PrepareComplains<W(!new)>(job: Job<W>, step: Step, run: Run<W>, version: nat, allow: bool)
    ensures
      var out := Prepare(job, step, run, version, allow);
      out.reply.Raised? ==> Complains(job.surface, out.reply.error)
  {
    EvaluationExplained(job, step.body.preconditions, run);
  }

  lemma PrepareExplained<W(!new)>(job: Job<W>, step: Step, run: Run<W>, version: nat, allow: bool, recover: bool)
    ensures
      var out := Prepare(job, step, run, version, allow);
      && (out.reply.Value? && out.reply.value.Go? ==> (out.reply.value.target.Some? <==> step.body.target.Some?))
      && (out.reply.Value? && out.reply.value.Stop? ==>
            Explained(job, step, Value(out.reply.value.end), run.uses, TextsOf(run.outputs), run.world, out.run.world,
                      recover))
  {
    var out := Prepare(job, step, run, version, allow);
    var ready := AllEvaluate(job, step.body.preconditions, run);
    if ready.reply == Value(true) {
      var seen := Observe(job, ready.run);
      if seen.reply.Value? {
        var target := Resolve(job, step.body.target, seen.run);
        if target.reply.Value? {
          VerdictExplained(job, step, run, version, allow, recover, ready, seen, target,
                           Replay.Judge(job, step.body, seen.reply.value, target.reply.value, target.run), out);
        }
      }
    } else if ready.reply == Value(false) && out.reply.Value? {
      EvaluationExplained(job, step.body.preconditions, run);
      StopExplained(job, step, "step_precondition_mismatch", run.uses, TextsOf(run.outputs), run.world, out.run.world,
                    recover);
    }
  }

  lemma VerdictExplained<W(!new)>(job: Job<W>, step: Step, run: Run<W>, version: nat, allow: bool, recover: bool,
                                  ready: Out<W, bool>, seen: Out<W, Observation>, target: Out<W, Option<string>>,
                                  judged: Out<W, Decision>, out: Out<W, Prepared>)
    requires AllEvaluate(job, step.body.preconditions, run) == ready && ready.reply == Value(true)
    requires Observe(job, ready.run) == seen && seen.reply.Value?
    requires Resolve(job, step.body.target, seen.run) == target && target.reply.Value?
    requires Replay.Judge(job, step.body, seen.reply.value, target.reply.value, target.run) == judged
    requires out == Prepare(job, step, run, version, allow)
    ensures out.reply.Value? && out.reply.value.Stop? ==>
              Explained(job, step, Value(out.reply.value.end), run.uses, TextsOf(run.outputs), run.world,
                        out.run.world, recover)
  {
    if out.reply.Value? && out.reply.value.Stop? {
      PreparedByVerdict(job, step, run, version, allow, ready, seen, target, judged);
      var decision := job.surface.policy(target.run.world, step.body, seen.reply.value, target.reply.value);
      if judged.reply.value.Deny? {
        assert decision == Says(Deny);
        StopExplained(job, step, "policy_blocked", run.uses, TextsOf(run.outputs), run.world, out.run.world, recover);
      } else {
        var reason := judged.reply.value.reason;
        assert decision == Says(RequireApproval(reason));
        ApprovalExplained(job, step, reason, judged.run, version, allow, TextsOf(run.outputs), run.world,
                          out.run.world, recover);
      }
    }
  }

  lemma ApprovalExplained<W(!new)>(job: Job<W>, step: Step, reason: string, run: Run<W>, version: nat, allow: bool,
                                   texts: Texts, from: W, to: W, recover: bool)
    requires exists w, seen, handle :: job.surface.policy(w, step.body, seen, handle) == Says(RequireApproval(reason))
    ensures Explained(job, step, Intervene(job, step, reason, run, version, false, 1).reply, run.uses, texts, from, to,
                      recover)
    ensures Explained(job, step, Value(Fail("recovery_requires_human", step)), run.uses, texts, from, to, recover)
  {
    assert Caused(job, step, reason, run.uses, recover)
           && Caused(job, step, "recovery_requires_human", run.uses, recover);
    PauseExplained(job, step, reason, run, version, false, 1, texts, from, to, recover);
    StopExplained(job, step, "recovery_requires_human", run.uses, texts, from, to, recover);
  }

  /** How a step may end: done with everything confirmed since its action, or for a cause. */
  ghost predicate StepExplained<W(!new)>(job: Job<W>, step: Step, out: Out<W, StepEnd>, recover: bool) {
    && (exists from: W ::
          Explained(job, step, out.reply, out.run.uses, TextsOf(out.run.outputs), from, out.run.world, recover))
    && (Concluded(out.reply) ==>
          exists from: W :: RightRecord(job, step, TextsOf(out.run.outputs), from, out.run.world))
    && (out.reply == Value(Done) ==> exists acted: W :: DoneSince(job, step, out.run, acted, recover))
  }

  ghost predicate DoneSince<W(!new)>(job: Job<W>, step: Step, run: Run<W>, acted: W, recover: bool) {
    ActedAs(job, step, run, acted) && Confirmed(job, step, TextsOf(run.outputs), acted, run.world, recover)
  }

  lemma TryExplained<W(!new)>(job: Job<W>, step: Step, run: Run<W>, version: nat, attempt: nat, recover: bool,
                              allow: bool)
    ensures StepExplained(job, step, Try(job, step, run, version, attempt, recover, allow).out, recover)
  {
    PrepareExplained(job, step, run, version, allow, recover);
    PrepareComplains(job, step, run, version, allow);
    var prepared := Prepare(job, step, run, version, allow);
    var out := Try(job, step, run, version, attempt, recover, allow).out;
    if prepared.reply.Value? && prepared.reply.value.Go? {
      PerformExplained(job, step, prepared.reply.value.target, prepared.run);
      var performed := Perform(job, step, prepared.reply.value.target, prepared.run);
      if performed.reply.Value? {
        VerifyExplained(job, step, performed.run, version, attempt, recover, allow);
        VerifiedSince(job, step, performed.run, out, recover);
      } else {
        assert Explained(job, step, out.reply, out.run.uses, TextsOf(out.run.outputs), run.world, out.run.world,
                         recover);
      }
    } else {
      assert Explained(job, step, out.reply, out.run.uses, TextsOf(out.run.outputs), run.world, out.run.world, recover);
    }
  }

  lemma VerifiedSince<W(!new)>(job: Job<W>, step: Step, performed: Run<W>, out: Out<W, StepEnd>, recover: bool)
    requires ActedAs(job, step, performed, performed.world) && Handed(performed, out.run)
    requires ChecksExplained(job, step, out, performed.uses, TextsOf(performed.outputs), performed.world, recover)
    ensures StepExplained(job, step, out, recover)
  {
    assert Explained(job, step, out.reply, out.run.uses, TextsOf(out.run.outputs), performed.world, out.run.world,
                     recover);
    if Concluded(out.reply) {
      assert RightRecord(job, step, TextsOf(out.run.outputs), performed.world, out.run.world);
    }
    if out.reply == Value(Done) {
      assert DoneSince(job, step, out.run, performed.world, recover);
    }
  }

  lemma GiveUpExplained<W(!new)>(job: Job<W>, step: Step, error: SurfaceError, run: Run<W>, version: nat,
                                 dispatched: bool, attempt: nat, recover: bool, allow: bool)
    requires Complaint(job, step, error)
    ensures StepExplained(job, step, GiveUp(job, step, error, run, version, dispatched, attempt, recover, allow),
                          recover)
  {
    SelectionExplained(job, step, run, recover);
    var selected := MaybeRecover(job, step, run, recover);
    var out := GiveUp(job, step, error, run, version, dispatched, attempt, recover, allow);
    if selected.reply == Value(None) {
      assert recover ==> TriggerFree(job, step);
      assert Caused(job, step, error.code, run.uses, recover);
      FailureExplained(job, step, error, selected.run, version, dispatched, attempt, allow, TextsOf(out.run.outputs),
                       run.world, out.run.world, recover);
    }
    assert Explained(job, step, out.reply, out.run.uses, TextsOf(out.run.outputs), run.world, out.run.world, recover);
  }

  /**
  A step that ended as done has acted, and since its action each of its postconditions came true and none of its
  declared branches showed. Any other end has its cause in what the surface answered: a recovery is chosen and an
  outcome returned only if that branch alone showed; a failure or a pause carries the code of what went wrong.
  */
  lemma {:induction false} StepEndsForACause<W(!new)>(job: Job<W>, step: Step, run: Run<W>, version: nat, attempt: nat,
                                                      recover: bool, allow: bool)
    ensures StepExplained(job, step, ExecuteStep(job, step, run, version, attempt, recover, allow), recover)
    decreases step.body.retry.maxAttempts - attempt
  {
    TryExplained(job, step, run, version, attempt, recover, allow);
    StepAfterTry(job, step, run, version, attempt, recover, allow);
    var tried := Try(job, step, run, version, attempt, recover, allow);
    if tried.out.reply.Raised? {
      if Retryable(step, tried.out.reply.error, attempt) {
        StepEndsForACause(job, step, Repeating(step, run, tried.out.run), version, attempt + 1, recover, allow);
      } else {
        GiveUpExplained(job, step, tried.out.reply.error, tried.out.run, version, tried.dispatched, attempt, recover,
                        allow);
      }
    }
  }
}
