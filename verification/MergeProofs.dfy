/**
Merging is a conservative extension: while none of the conditions it added holds, replaying the merged
artifact is replaying the primary, action for action and result for result.
*/
module MergeProofs {
  import opened Prelude
  import opened Capability
  import opened Replay
  import opened ReplayHonesty
  import opened ReplayProofs
  import opened ReplayStage
  import opened ReplayOnce
  import opened Merge

  // ---------------------------------------------------------------- two jobs side by side

  /** The branches of one kind that an artifact declares. */
  function Declared(a: Artifact, kind: Branching): seq<Id> {
    match kind
    case Outcomes => BranchCodes(a.outcomes)
    case Failures => BranchCodes(a.failures)
    case Recoveries => RecoveryIds(a.recoveries)
  }

  /**
  What a run of an extension looks out for: a question about a branch the base does not declare that is
  answered otherwise than by a plain no, and a verdict of policy that the base would not have had.
  */
  ghost function Lookout<W>(p: Job<W>): Watch<W> {
    Watch((kind, ref, before, reply, after) => ref !in Declared(p.artifact, kind)
          && !(reply == Value(false) && after == before),
          (world, body, seen, target, answer) => answer != p.surface.policy(world, body, seen, target))
  }

  /** Two jobs on one surface, apart from policy; the second is on the lookout. */
  ghost predicate Alike<W>(p: Job<W>, m: Job<W>) {
    && m.surface == p.surface.(policy := m.surface.policy)
    && m.allowIntervention == p.allowIntervention
    && m.artifact.checkpoint == p.artifact.checkpoint
    && p.watch == Idle() && m.watch == Lookout(p)
  }

  /** The references in `t` are those in `s`, which are declared, and then some that are not. */
  ghost predicate Wider(declared: seq<Id>, s: seq<Id>, a: map<Id, Condition>, t: seq<Id>, b: map<Id, Condition>) {
    && s <= t
    && (forall ref <- s :: ref in declared && ref in a && ref in b && a[ref] == b[ref])
    && (forall ref <- t[|s|..] :: ref !in declared && ref in b)
  }

  ghost predicate Paired(p: Artifact, m: Artifact, s: Step, t: Step) {
    && t.id == s.id && t.body == s.body
    && Wider(Declared(p, Outcomes), s.outcomeRefs, Detectors(p.outcomes), t.outcomeRefs, Detectors(m.outcomes))
    && Wider(Declared(p, Failures), s.failureRefs, Detectors(p.failures), t.failureRefs, Detectors(m.failures))
    && Wider(Declared(p, Recoveries), s.recoveryRefs, Triggers(p.recoveries), t.recoveryRefs, Triggers(m.recoveries))
    && (forall ref <- s.recoveryRefs :: FindRecovery(m.recoveries, ref) == FindRecovery(p.recoveries, ref))
  }

  // ---------------------------------------------------------------- conditions

  lemma {:induction false} AllEvaluateAlike<W>(p: Job<W>, m: Job<W>, conditions: seq<Condition>, run: Run<W>)
    requires Alike(p, m)
    ensures AllEvaluate(m, conditions, run) == AllEvaluate(p, conditions, run)
  {
    if conditions != [] {
      AllEvaluateAlike(p, m, conditions[1..], Evaluate(p, conditions[0], run).run);
    }
  }

  lemma {:induction false} AllAwaitedAlike<W>(p: Job<W>, m: Job<W>, conditions: seq<Condition>, run: Run<W>)
    requires Alike(p, m)
    ensures AllAwaited(m, conditions, run) == AllAwaited(p, conditions, run)
  {
    if conditions != [] {
      AllAwaitedAlike(p, m, conditions[1..], WaitUntil(p, conditions[0], run).run);
    }
  }

  lemma {:induction false} IdentityVerifiedAlike<W>(p: Job<W>, m: Job<W>, conditions: seq<Condition>, run: Run<W>)
    requires Alike(p, m)
    ensures IdentityVerified(m, conditions, run) == IdentityVerified(p, conditions, run)
  {
    if conditions != [] {
      IdentityVerifiedAlike(p, m, conditions[1..], run);
      IdentityVerifiedAlike(p, m, conditions[1..], WaitUntil(p, conditions[0], run).run);
    }
  }

  lemma {:induction false} IdentityEvaluatesAlike<W>(p: Job<W>, m: Job<W>, conditions: seq<Condition>, run: Run<W>)
    requires Alike(p, m)
    ensures IdentityEvaluates(m, conditions, run) == IdentityEvaluates(p, conditions, run)
  {
    if conditions != [] {
      IdentityEvaluatesAlike(p, m, conditions[1..], run);
      IdentityEvaluatesAlike(p, m, conditions[1..], Evaluate(p, conditions[0], run).run);
    }
  }

  /** A branch both jobs know is asked for alike. */
  lemma AskAlike<W>(p: Job<W>, m: Job<W>, kind: Branching, ref: Id, c: Condition, run: Run<W>)
    requires Alike(p, m) && ref in Declared(p.artifact, kind)
    ensures Ask(m, kind, ref, c, run) == Ask(p, kind, ref, c, run)
  {
    assert Evaluate(m, c, run) == Evaluate(p, c, run);
  }

  /** Asking for a new branch without being marked gets a no and changes nothing. */
  lemma AskUnmarked<W>(p: Job<W>, m: Job<W>, kind: Branching, ref: Id, c: Condition, run: Run<W>)
    requires Alike(p, m) && ref !in Declared(p.artifact, kind) && AllFrom(run.outputs, run.epoch)
    requires !Ask(m, kind, ref, c, run).run.marked
    ensures Ask(m, kind, ref, c, run) == Out(Value(false), run)
  {
    var asked := Evaluate(m, c, run);
    assert asked.reply == Value(false) && asked.run.world == run.world;
  }

  lemma JudgeAlike<W>(p: Job<W>, m: Job<W>, body: StepBody, seen: Observation, target: Option<string>, run: Run<W>)
    requires Alike(p, m) && !Replay.Judge(m, body, seen, target, run).run.marked
    ensures Replay.Judge(m, body, seen, target, run) == Replay.Judge(p, body, seen, target, run)
  {
  }

  lemma {:induction false} NoneMatch<W>(p: Job<W>, m: Job<W>, kind: Branching, refs: seq<Id>, b: map<Id, Condition>,
                                        run: Run<W>)
    requires Alike(p, m) && (forall ref <- refs :: ref !in Declared(p.artifact, kind) && ref in b)
    requires AllFrom(run.outputs, run.epoch) && !Matching(m, kind, refs, b, run).run.marked
    ensures Matching(m, kind, refs, b, run) == Out(Value([]), run)
  {
    if refs != [] {
      AskUnmarked(p, m, kind, refs[0], b[refs[0]], run);
      NoneMatch(p, m, kind, refs[1..], b, run);
    }
  }

  lemma {:induction false} MatchingWider<W>(p: Job<W>, m: Job<W>, kind: Branching, s: seq<Id>, a: map<Id, Condition>,
                                            t: seq<Id>, b: map<Id, Condition>, run: Run<W>)
    requires Alike(p, m) && Wider(Declared(p.artifact, kind), s, a, t, b)
    requires AllFrom(run.outputs, run.epoch) && !Matching(m, kind, t, b, run).run.marked
    ensures Matching(m, kind, t, b, run) == Matching(p, kind, s, a, run)
  {
    if s == [] {
      assert t[|s|..] == t;
      NoneMatch(p, m, kind, t, b, run);
    } else {
      assert s[0] == t[0] && s[1..] <= t[1..] && t[1..][|s[1..]|..] == t[|s|..];
      AskAlike(p, m, kind, s[0], a[s[0]], run);
      var asked := Ask(p, kind, s[0], a[s[0]], run);
      if asked.reply.Value? {
        MatchingWider(p, m, kind, s[1..], a, t[1..], b, asked.run);
      }
    }
  }

  lemma DetectWider<W>(p: Job<W>, m: Job<W>, kind: Branching, s: seq<Id>, a: map<Id, Condition>,
                       t: seq<Id>, b: map<Id, Condition>, run: Run<W>)
    requires Alike(p, m) && Wider(Declared(p.artifact, kind), s, a, t, b)
    requires AllFrom(run.outputs, run.epoch) && !Detect(m, kind, t, b, run).run.marked
    ensures Detect(m, kind, t, b, run) == Detect(p, kind, s, a, run)
  {
    MatchingWider(p, m, kind, s, a, t, b, run);
  }

  // ---------------------------------------------------------------- one attempt

  /** What the lemmas on a step and its extended form assume. */
  ghost predicate Matched<W>(p: Job<W>, m: Job<W>, s: Step, t: Step, run: Run<W>) {
    Alike(p, m) && Paired(p.artifact, m.artifact, s, t) && AllFrom(run.outputs, run.epoch)
  }

  lemma SelectAlike<W>(p: Job<W>, m: Job<W>, s: Step, t: Step, run: Run<W>)
    requires Matched(p, m, s, t, run) && !SelectRecovery(m, t, run).run.marked
    ensures SelectRecovery(m, t, run) == SelectRecovery(p, s, run)
  {
    DetectWider(p, m, Recoveries, s.recoveryRefs, Triggers(p.artifact.recoveries), t.recoveryRefs,
                Triggers(m.artifact.recoveries), run);
  }

  lemma OutcomeAlike<W>(p: Job<W>, m: Job<W>, s: Step, t: Step, run: Run<W>)
    requires Matched(p, m, s, t, run)
             && !Detect(m, Outcomes, t.outcomeRefs, Detectors(m.artifact.outcomes), run).run.marked
    ensures Detect(m, Outcomes, t.outcomeRefs, Detectors(m.artifact.outcomes), run)
         == Detect(p, Outcomes, s.outcomeRefs, Detectors(p.artifact.outcomes), run)
  {
    DetectWider(p, m, Outcomes, s.outcomeRefs, Detectors(p.artifact.outcomes), t.outcomeRefs,
                Detectors(m.artifact.outcomes), run);
  }

  lemma FailureAlike<W>(p: Job<W>, m: Job<W>, s: Step, t: Step, run: Run<W>)
    requires Matched(p, m, s, t, run)
             && !Detect(m, Failures, t.failureRefs, Detectors(m.artifact.failures), run).run.marked
    ensures Detect(m, Failures, t.failureRefs, Detectors(m.artifact.failures), run)
         == Detect(p, Failures, s.failureRefs, Detectors(p.artifact.failures), run)
  {
    DetectWider(p, m, Failures, s.failureRefs, Detectors(p.artifact.failures), t.failureRefs,
                Detectors(m.artifact.failures), run);
  }

  lemma InterveneAlike<W>(p: Job<W>, m: Job<W>, s: Step, t: Step, code: string, run: Run<W>, version: nat,
                          retryStep: bool, attempt: nat)
    requires Alike(p, m) && t.id == s.id
    ensures Intervene(m, t, code, run, version, retryStep, attempt)
            == Intervene(p, s, code, run, version, retryStep, attempt)
  {
  }

  lemma SurfaceFailureAlike<W>(p: Job<W>, m: Job<W>, s: Step, t: Step, error: SurfaceError, run: Run<W>, version: nat,
                               dispatched: bool, attempt: nat, allow: bool)
    requires Alike(p, m) && t.id == s.id && t.body == s.body
    requires !SurfaceFailure(m, t, error, run, version, dispatched, attempt, allow).run.marked
    ensures SurfaceFailure(m, t, error, run, version, dispatched, attempt, allow)
         == SurfaceFailure(p, s, error, run, version, dispatched, attempt, allow)
  {
    if allow && m.allowIntervention && (Eligible(error.code, dispatched) || error.interventionRecommended) {
      var seen := Observe(p, run);
      assert Observe(m, run) == seen;
      if seen.reply.Value? {
        JudgeAlike(p, m, s.body, seen.reply.value, None, seen.run);
        var decided := Replay.Judge(p, s.body, seen.reply.value, None, seen.run);
        InterveneAlike(p, m, s, t, error.code, decided.run, version, !dispatched, attempt);
      }
    }
  }

  lemma PrepareAlike<W>(p: Job<W>, m: Job<W>, s: Step, t: Step, run: Run<W>, version: nat, allow: bool)
    requires Alike(p, m) && t.id == s.id && t.body == s.body && !Prepare(m, t, run, version, allow).run.marked
    ensures Prepare(m, t, run, version, allow) == Prepare(p, s, run, version, allow)
  {
    if AssertCanAct(p, run, version).reply.Value? {
      assert AssertCanAct(m, run, version) == AssertCanAct(p, run, version);
      AllEvaluateAlike(p, m, s.body.preconditions, run);
      var ready := AllEvaluate(p, s.body.preconditions, run);
      if ready.reply == Value(true) {
        PrepareReadyAlike(p, m, s, t, run, ready.run, version, allow);
      }
    }
  }

  lemma PrepareReadyAlike<W>(p: Job<W>, m: Job<W>, s: Step, t: Step, run: Run<W>, ready: Run<W>, version: nat,
                             allow: bool)
    requires Alike(p, m) && t.id == s.id && t.body == s.body && !Prepare(m, t, run, version, allow).run.marked
    requires AssertCanAct(m, run, version).reply.Value? && AssertCanAct(p, run, version).reply.Value?
    requires AllEvaluate(m, t.body.preconditions, run) == Out(Value(true), ready)
             == AllEvaluate(p, s.body.preconditions, run)
    ensures Prepare(m, t, run, version, allow) == Prepare(p, s, run, version, allow)
  {
    var seen := Observe(p, ready);
    assert Observe(m, ready) == seen;
    var target := Resolve(p, s.body.target, seen.run);
    assert Resolve(m, t.body.target, seen.run) == target;
    if seen.reply.Value? && target.reply.Value? {
      JudgeAlike(p, m, s.body, seen.reply.value, target.reply.value, target.run);
      var decided := Replay.Judge(p, s.body, seen.reply.value, target.reply.value, target.run);
      if decided.reply.Value? && decided.reply.value.RequireApproval? {
        InterveneAlike(p, m, s, t, decided.reply.value.reason, decided.run, version, false, 1);
      }
    }
  }

  lemma PerformAlike<W>(p: Job<W>, m: Job<W>, s: Step, t: Step, target: Option<string>, run: Run<W>)
    requires Alike(p, m) && t.id == s.id && t.body == s.body
    ensures Perform(m, t, target, run) == Perform(p, s, target, run)
  {
  }

  lemma GiveInAlike<W>(p: Job<W>, m: Job<W>, s: Step, t: Step, run: Run<W>, version: nat, attempt: nat, recover: bool,
                       allow: bool)
    requires Matched(p, m, s, t, run) && !GiveIn(m, t, run, version, attempt, recover, allow).run.marked
    ensures GiveIn(m, t, run, version, attempt, recover, allow) == GiveIn(p, s, run, version, attempt, recover, allow)
  {
    FailureAlike(p, m, s, t, run);
    var detected := Detect(p, Failures, s.failureRefs, Detectors(p.artifact.failures), run);
    if detected.reply == Value(None) {
      SurfaceFailureAlike(p, m, s, t, Plain("postcondition_mismatch"), detected.run, version, s.body.action.Operate?,
                          attempt, allow);
    }
  }

  lemma UnconfirmedAlike<W>(p: Job<W>, m: Job<W>, s: Step, t: Step, run: Run<W>, version: nat,
                            attempt: nat, recover: bool, allow: bool)
    requires Matched(p, m, s, t, run) && !Unconfirmed(m, t, run, version, attempt, recover, allow).run.marked
    ensures Unconfirmed(m, t, run, version, attempt, recover, allow)
            == Unconfirmed(p, s, run, version, attempt, recover, allow)
  {
    if recover {
      SelectAlike(p, m, s, t, run);
      var selected := SelectRecovery(p, s, run);
      if selected.reply == Value(None) {
        GiveInAlike(p, m, s, t, selected.run, version, attempt, recover, allow);
      }
    } else {
      GiveInAlike(p, m, s, t, run, version, attempt, recover, allow);
    }
  }

  lemma {:induction false} ConfirmAlike<W>(p: Job<W>, m: Job<W>, s: Step, t: Step, conditions: seq<Condition>,
                                           run: Run<W>,
                                           version: nat, attempt: nat, recover: bool, allow: bool)
    requires Matched(p, m, s, t, run) && !Confirm(m, t, conditions, run, version, attempt, recover, allow).run.marked
    ensures Confirm(m, t, conditions, run, version, attempt, recover, allow)
         == Confirm(p, s, conditions, run, version, attempt, recover, allow)
    decreases |conditions|
  {
    if conditions != [] {
      if ContainsIdentity(conditions[0]) {
        ConfirmAlike(p, m, s, t, conditions[1..], run, version, attempt, recover, allow);
      } else {
        var waited := WaitUntil(p, conditions[0], run);
        assert WaitUntil(m, conditions[0], run) == waited;
        if waited.reply.Value? {
          OutcomeAlike(p, m, s, t, waited.run);
          var outcome := Detect(p, Outcomes, s.outcomeRefs, Detectors(p.artifact.outcomes), waited.run);
          if outcome.reply == Value(None) {
            if waited.reply.value {
              ConfirmAlike(p, m, s, t, conditions[1..], outcome.run, version, attempt, recover, allow);
            } else {
              UnconfirmedAlike(p, m, s, t, outcome.run, version, attempt, recover, allow);
            }
          }
        }
      }
    }
  }

  lemma EarlyUnmarked<W>(m: Job<W>, t: Step, run: Run<W>, recover: bool)
    requires !EarlyBranch(m, t, run, recover).run.marked
    ensures
      var outcome := Detect(m, Outcomes, t.outcomeRefs, Detectors(m.artifact.outcomes), run);
      var failure := Detect(m, Failures, t.failureRefs, Detectors(m.artifact.failures), outcome.run);
      && !outcome.run.marked
      && (outcome.reply == Value(None) ==>
            && !failure.run.marked
            && (failure.reply == Value(None) && recover ==> !SelectRecovery(m, t, failure.run).run.marked))
  {
  }

  lemma EarlyAlike<W>(p: Job<W>, m: Job<W>, s: Step, t: Step, run: Run<W>, recover: bool)
    requires Matched(p, m, s, t, run) && !EarlyBranch(m, t, run, recover).run.marked
    ensures EarlyBranch(m, t, run, recover) == EarlyBranch(p, s, run, recover)
  {
    EarlyUnmarked(m, t, run, recover);
    OutcomeAlike(p, m, s, t, run);
    var outcome := Detect(p, Outcomes, s.outcomeRefs, Detectors(p.artifact.outcomes), run);
    if outcome.reply == Value(None) {
      FailureAlike(p, m, s, t, outcome.run);
      var failure := Detect(p, Failures, s.failureRefs, Detectors(p.artifact.failures), outcome.run);
      if failure.reply == Value(None) {
        if recover {
          SelectAlike(p, m, s, t, failure.run);
          assert EarlyBranch(m, t, run, recover) == EarlyBranch(p, s, run, recover);
        } else {
          assert EarlyBranch(m, t, run, recover) == EarlyBranch(p, s, run, recover);
        }
      }
    }
  }

  lemma VerifyAlike<W>(p: Job<W>, m: Job<W>, s: Step, t: Step, run: Run<W>, version: nat, attempt: nat, recover: bool,
                       allow: bool)
    requires Matched(p, m, s, t, run) && !Verify(m, t, run, version, attempt, recover, allow).run.marked
    ensures Verify(m, t, run, version, attempt, recover, allow) == Verify(p, s, run, version, attempt, recover, allow)
  {
    IdentityVerifiedAlike(p, m, s.body.postconditions, run);
    var identity := IdentityVerified(p, s.body.postconditions, run);
    if identity.reply.value {
      EarlyAlike(p, m, s, t, identity.run, recover);
      var early := EarlyBranch(p, s, identity.run, recover);
      VerifyGoesOn(m, t, run, version, attempt, recover, allow, identity, early);
      VerifyGoesOn(p, s, run, version, attempt, recover, allow, identity, early);
      if early.reply == Value(Done) {
        ConfirmAlike(p, m, s, t, s.body.postconditions, early.run, version, attempt, recover, allow);
      }
    }
  }

  lemma VerifyGoesOn<W>(job: Job<W>, step: Step, run: Run<W>, version: nat, attempt: nat, recover: bool, allow: bool,
                        identity: Out<W, bool>, early: Out<W, StepEnd>)
    requires IdentityVerified(job, step.body.postconditions, run) == identity && identity.reply == Value(true)
    requires EarlyBranch(job, step, identity.run, recover) == early
    ensures Verify(job, step, run, version, attempt, recover, allow)
         == if early.reply == Value(Done)
            then Confirm(job, step, step.body.postconditions, early.run, version, attempt, recover, allow) else early
  {
  }

  lemma TryAlike<W>(p: Job<W>, m: Job<W>, s: Step, t: Step, run: Run<W>, version: nat, attempt: nat, recover: bool,
                    allow: bool)
    requires Matched(p, m, s, t, run) && !Try(m, t, run, version, attempt, recover, allow).out.run.marked
    ensures Try(m, t, run, version, attempt, recover, allow) == Try(p, s, run, version, attempt, recover, allow)
  {
    PrepareAlike(p, m, s, t, run, version, allow);
    var prepared := Prepare(p, s, run, version, allow);
    if prepared.reply.Value? && prepared.reply.value.Go? {
      PerformAlike(p, m, s, t, prepared.reply.value.target, prepared.run);
      var performed := Perform(p, s, prepared.reply.value.target, prepared.run);
      if performed.reply.Value? {
        VerifyAlike(p, m, s, t, performed.run, version, attempt, recover, allow);
      }
    }
  }

  lemma GiveUpAlike<W>(p: Job<W>, m: Job<W>, s: Step, t: Step, error: SurfaceError, run: Run<W>, version: nat,
                       dispatched: bool,
                       attempt: nat, recover: bool, allow: bool)
    requires Matched(p, m, s, t, run)
             && !GiveUp(m, t, error, run, version, dispatched, attempt, recover, allow).run.marked
    ensures GiveUp(m, t, error, run, version, dispatched, attempt, recover, allow)
         == GiveUp(p, s, error, run, version, dispatched, attempt, recover, allow)
  {
    if recover {
      SelectAlike(p, m, s, t, run);
      var selected := SelectRecovery(p, s, run);
      if selected.reply == Value(None) {
        SurfaceFailureAlike(p, m, s, t, error, selected.run, version, dispatched, attempt, allow);
      }
    } else {
      SurfaceFailureAlike(p, m, s, t, error, run, version, dispatched, attempt, allow);
    }
  }

  // ---------------------------------------------------------------- steps, recoveries, the main loop

  lemma StepUnmarked<W>(m: Job<W>, t: Step, run: Run<W>, version: nat, attempt: nat, recover: bool, allow: bool)
    requires !ExecuteStep(m, t, run, version, attempt, recover, allow).run.marked
    ensures
      var tried := Try(m, t, run, version, attempt, recover, allow);
      && !tried.out.run.marked
      && (tried.out.reply.Raised? ==>
            if Retryable(t, tried.out.reply.error, attempt)
            then !ExecuteStep(m, t, Repeating(t, run, tried.out.run), version, attempt + 1, recover, allow).run.marked
            else !GiveUp(m, t, tried.out.reply.error, tried.out.run, version, tried.dispatched, attempt, recover,
                         allow).run.marked)
  {
    StepAfterTry(m, t, run, version, attempt, recover, allow);
  }

  lemma {:induction false} StepAlike<W>(p: Job<W>, m: Job<W>, s: Step, t: Step, run: Run<W>, version: nat,
                                        attempt: nat, recover: bool, allow: bool)
    requires Matched(p, m, s, t, run) && !ExecuteStep(m, t, run, version, attempt, recover, allow).run.marked
    ensures ExecuteStep(m, t, run, version, attempt, recover, allow)
            == ExecuteStep(p, s, run, version, attempt, recover, allow)
    decreases s.body.retry.maxAttempts - attempt
  {
    StepUnmarked(m, t, run, version, attempt, recover, allow);
    StepAfterTry(m, t, run, version, attempt, recover, allow);
    StepAfterTry(p, s, run, version, attempt, recover, allow);
    TryAlike(p, m, s, t, run, version, attempt, recover, allow);
    var tried := Try(p, s, run, version, attempt, recover, allow);
    if tried.out.reply.Raised? {
      var error, after := tried.out.reply.error, tried.out.run;
      if Retryable(s, error, attempt) {
        StepAlike(p, m, s, t, Repeating(s, run, after), version, attempt + 1, recover, allow);
      } else {
        GiveUpAlike(p, m, s, t, error, after, version, tried.dispatched, attempt, recover, allow);
      }
    }
  }

  lemma RecoverUnmarked<W>(m: Job<W>, steps: seq<Step>, run: Run<W>, version: nat)
    requires steps != [] && !RecoverFrom(m, steps, run, version).run.marked
    ensures !ExecuteStep(m, steps[0], run, version, 1, false, false).run.marked
  {
    RecoverNext(m, steps, run, version);
  }

  lemma {:induction false} RecoverAlike<W>(p: Job<W>, m: Job<W>, steps: seq<Step>, run: Run<W>, version: nat)
    requires Alike(p, m) && (forall step <- steps :: Paired(p.artifact, m.artifact, step, step))
    requires AllFrom(run.outputs, run.epoch) && !RecoverFrom(m, steps, run, version).run.marked
    ensures RecoverFrom(m, steps, run, version) == RecoverFrom(p, steps, run, version)
    decreases |steps|
  {
    if steps != [] {
      RecoverUnmarked(m, steps, run, version);
      RecoverNext(m, steps, run, version);
      RecoverNext(p, steps, run, version);
      StepAlike(p, m, steps[0], steps[0], run, version, 1, false, false);
      var stepped := ExecuteStep(p, steps[0], run, version, 1, false, false);
      assert Heartbeat(m, stepped.run, version) == Heartbeat(p, stepped.run, version);
      var beat := Heartbeat(p, stepped.run, version);
      if stepped.reply == Value(Done) && beat.reply.Value? {
        RecoverAlike(p, m, steps[1..], beat.run, beat.reply.value);
      }
    }
  }

  /** All a comparison of two runs needs to know about the artifacts. */
  ghost predicate Lined<W>(p: Job<W>, m: Job<W>) {
    && Alike(p, m)
    && StepIds(m.artifact.steps) == StepIds(p.artifact.steps)
    && (forall i :: 0 <= i < |p.artifact.steps| ==>
          Paired(p.artifact, m.artifact, p.artifact.steps[i], m.artifact.steps[i]))
    && (forall r <- p.artifact.recoveries :: forall step <- r.steps :: Paired(p.artifact, m.artifact, step, step))
  }

  lemma RecoveryAlike<W>(p: Job<W>, m: Job<W>, r: Recovery, run: Run<W>, version: nat)
    requires Lined(p, m) && r in p.artifact.recoveries && AllFrom(run.outputs, run.epoch)
    requires !ExecuteRecovery(m, r, run, version).run.marked
    ensures ExecuteRecovery(m, r, run, version) == ExecuteRecovery(p, r, run, version)
  {
    var started := Started(run, r);
    var beat := Heartbeat(p, started, version);
    assert Heartbeat(m, started, version) == beat;
    if beat.reply.Value? {
      RecoverAlike(p, m, r.steps, beat.run, beat.reply.value);
    }
  }

  lemma FinishAlike<W>(p: Job<W>, m: Job<W>, s: Step, t: Step, run: Run<W>, stepped: Out<W, StepEnd>, version: nat,
                       attempt: nat)
    requires Lined(p, m) && Paired(p.artifact, m.artifact, s, t) && AllFrom(run.outputs, run.epoch)
    requires StepEnding(p, s, run, stepped, attempt, true, true) && !FinishMain(m, stepped, version).run.marked
    ensures FinishMain(m, stepped, version) == FinishMain(p, stepped, version)
  {
    if stepped.reply.Value? && stepped.reply.value.Recover? {
      var found := FindRecovery(p.artifact.recoveries, stepped.reply.value.id);
      assert FindRecovery(m.artifact.recoveries, stepped.reply.value.id) == found;
      if found.Some? {
        RecoveryAlike(p, m, found.value, stepped.run, version);
      }
    }
  }

  /** Once marked, a run stays marked. */
  lemma FinishMarks<W>(job: Job<W>, stepped: Out<W, StepEnd>, version: nat)
    ensures stepped.run.marked ==> FinishMain(job, stepped, version).run.marked
  {
  }

  lemma MainAlike<W>(p: Job<W>, m: Job<W>, i: nat, run: Run<W>, version: nat, attempt: nat)
    requires Lined(p, m) && i < |p.artifact.steps| == |m.artifact.steps| && AllFrom(run.outputs, run.epoch)
    requires !ExecuteMain(m, m.artifact.steps[i], run, version, attempt).run.marked
    ensures ExecuteMain(m, m.artifact.steps[i], run, version, attempt)
            == ExecuteMain(p, p.artifact.steps[i], run, version, attempt)
  {
    var s, t := p.artifact.steps[i], m.artifact.steps[i];
    var entered := run.(entries := run.entries + 1);
    MainIsFinish(p, s, run, version, attempt);
    MainIsFinish(m, t, run, version, attempt);
    FinishMarks(m, ExecuteStep(m, t, entered, version, attempt, true, true), version);
    StepAlike(p, m, s, t, entered, version, attempt, true, true);
    FinishAlike(p, m, s, t, entered, ExecuteStep(p, s, entered, version, attempt, true, true), version, attempt);
  }

  lemma {:induction false} IndexAlike(a: seq<Step>, b: seq<Step>, id: Id)
    requires StepIds(a) == StepIds(b)
    ensures IndexOf(a, id) == IndexOf(b, id)
  {
    assert |StepIds(a)| == |a| && |StepIds(b)| == |b|;
    if a != [] {
      var n := |a| - 1;
      assert StepIds(a)[n] == StepIds(b)[n];
      assert StepIds(a[..n]) == StepIds(a)[..n] == StepIds(b)[..n] == StepIds(b[..n]);
      IndexAlike(a[..n], b[..n], id);
    }
  }

  lemma SettleAlike<W>(p: Job<W>, m: Job<W>, main: Out<W, MainEnd>, version: nat, index: nat)
    requires Alike(p, m) && StepIds(m.artifact.steps) == StepIds(p.artifact.steps)
    requires index < |p.artifact.steps| == |m.artifact.steps|
    ensures Settle(m, main, version, index) == Settle(p, main, version, index)
  {
    if main.reply.Value? {
      if main.reply.value.Jump? {
        IndexAlike(p.artifact.steps, m.artifact.steps, main.reply.value.to);
        assert Heartbeat(m, main.run, main.reply.value.version) == Heartbeat(p, main.run, main.reply.value.version);
      } else if main.reply.value.Leave? {
        assert main.reply.value.result.Intervention? ==>
                 Retain(m, main.reply.value.result, main.run, index)
                   == Retain(p, main.reply.value.result, main.run, index);
      } else {
        assert Heartbeat(m, main.run, version) == Heartbeat(p, main.run, version);
      }
    }
  }

  lemma RoundAlike<W>(p: Job<W>, m: Job<W>, run: Run<W>, version: nat, index: nat, first: (nat, nat))
    requires Lined(p, m) && index < |p.artifact.steps| == |m.artifact.steps| && AllFrom(run.outputs, run.epoch)
    requires
      match DriveOnce(m, run, version, index, first)
      case Over(end) => !RunOf(end).marked
      case Next(run', _, _) => !run'.marked
    ensures DriveOnce(m, run, version, index, first) == DriveOnce(p, run, version, index, first)
  {
    var attempt := AttemptAt(index, first);
    SettleRemembers(m, ExecuteMain(m, m.artifact.steps[index], run, version, attempt), version, index);
    MainAlike(p, m, index, run, version, attempt);
    SettleAlike(p, m, ExecuteMain(p, p.artifact.steps[index], run, version, attempt), version, index);
  }

  lemma SettleFrom<W>(job: Job<W>, step: Step, run: Run<W>, main: Out<W, MainEnd>, version: nat, index: nat,
                      attempt: nat)
    requires index < |job.artifact.steps| && MainEnding(job, step, run, main, version, attempt)
             && AllFrom(run.outputs, run.epoch)
    ensures
      var round := Settle(job, main, version, index);
      round.Next? ==> AllFrom(round.run.outputs, round.run.epoch)
  {
  }

  lemma {:induction false} DriveMarks<W>(job: Job<W>, run: Run<W>, version: nat, index: nat, first: (nat, nat))
    requires index <= |job.artifact.steps| && run.marked
    ensures RunOf(Drive(job, run, version, index, first)).marked
    decreases Budget(job.artifact.recoveries, run.uses), |job.artifact.steps| - index
  {
    if index < |job.artifact.steps| {
      var step, attempt := job.artifact.steps[index], AttemptAt(index, first);
      SettleRemembers(job, ExecuteMain(job, step, run, version, attempt), version, index);
      match DriveOnce(job, run, version, index, first) {
        case Over(_) =>
        case Next(run', version', index') => DriveMarks(job, run', version', index', first);
      }
    }
  }

  lemma CompleteAlike<W>(p: Job<W>, m: Job<W>, run: Run<W>)
    requires Alike(p, m)
    ensures Complete(m, run) == Complete(p, run)
  {
    assert WaitUntil(m, m.artifact.checkpoint, run) == WaitUntil(p, p.artifact.checkpoint, run);
  }

  lemma {:induction false} DriveAlike<W>(p: Job<W>, m: Job<W>, run: Run<W>, version: nat, index: nat, first: (nat, nat))
    requires Lined(p, m) && index <= |p.artifact.steps| == |m.artifact.steps| && AllFrom(run.outputs, run.epoch)
    requires !RunOf(Drive(m, run, version, index, first)).marked
    ensures Drive(m, run, version, index, first) == Drive(p, run, version, index, first)
    decreases Budget(p.artifact.recoveries, run.uses), |p.artifact.steps| - index
  {
    if index == |p.artifact.steps| {
      CompleteAlike(p, m, run);
    } else {
      DriveGoesOn(m, run, version, index, first);
      DriveGoesOn(p, run, version, index, first);
      var once := DriveOnce(m, run, version, index, first);
      if once.Next? && once.run.marked {
        DriveMarks(m, once.run, once.version, once.index, first);
      }
      RoundAlike(p, m, run, version, index, first);
      var step, attempt := p.artifact.steps[index], AttemptAt(index, first);
      SettleFrom(p, step, run, ExecuteMain(p, step, run, version, attempt), version, index, attempt);
      if once.Next? {
        DriveAlike(p, m, once.run, once.version, once.index, first);
      }
    }
  }

  // ---------------------------------------------------------------- resuming

  lemma {:induction false} OutputsSplit(a: seq<Condition>, b: seq<Condition>)
    ensures OutputsOf(a + b) == OutputsOf(a) + OutputsOf(b)
  {
    if a == [] {
      assert a + b == b;
    } else {
      assert (a + b)[1..] == a[1..] + b;
      OutputsSplit(a[1..], b);
    }
  }

  lemma {:induction false} SameDetected(base: seq<Branch>, s: seq<Id>, t: seq<Id>)
    requires forall b <- base :: b.code in s <==> b.code in t
    ensures DetectedAfter(base, t) == DetectedAfter(base, s)
  {
    if base != [] {
      assert base[|base| - 1] in base;
      SameDetected(base[..|base| - 1], s, t);
    }
  }

  lemma OutputsOfOne(c: Condition)
    ensures OutputsOf([c]) == ConditionOutputs(c)
  {
    assert [c][1..] == [];
  }

  /** Branches whose conditions read no output ask for none to be read again. */
  lemma {:induction false} DetectedAlike(base: seq<Branch>, added: seq<Branch>, s: seq<Id>, t: seq<Id>)
    requires forall b <- base :: b.code in s <==> b.code in t
    requires forall b <- added :: ConditionOutputs(b.detect) == {}
    ensures OutputsOf(DetectedAfter(base + added, t)) == OutputsOf(DetectedAfter(base, s))
    decreases |added|
  {
    if added == [] {
      assert base + added == base;
      SameDetected(base, s, t);
    } else {
      var n := |added| - 1;
      DetectedAlike(base, added[..n], s, t);
      assert (base + added)[..|base + added| - 1] == base + added[..n];
      OutputsSplit(DetectedAfter(base + added[..n], t), if added[n].code in t then [added[n].detect] else []);
      OutputsOfOne(added[n].detect);
    }
  }

  ghost predicate SameBodies(a: seq<Step>, b: seq<Step>) {
    |a| == |b| && forall i :: 0 <= i < |a| ==> a[i].body == b[i].body && a[i].id == b[i].id
  }

  lemma {:induction false} LastAlike(a: seq<Step>, b: seq<Step>, output: string)
    requires SameBodies(a, b)
    ensures
      var x, y := LastExtraction(a, output), LastExtraction(b, output);
      x.Some? == y.Some? && (x.Some? ==> x.value.body == y.value.body && x.value.id == y.value.id)
  {
    if a != [] {
      LastAlike(a[..|a| - 1], b[..|b| - 1], output);
    }
  }

  lemma ReadNextAlike<W>(p: Job<W>, m: Job<W>, x: Step, y: Step, seen: Observation, run: Run<W>)
    requires Alike(p, m) && x.body == y.body && x.id == y.id && x.body.action.Extract? && x.body.target.Some?
    requires !ReadNext(m, y, seen, run).run.marked
    ensures ReadNext(m, y, seen, run) == ReadNext(p, x, seen, run)
  {
    var resolved := Resolve(p, x.body.target, run);
    assert Resolve(m, x.body.target, run) == resolved;
    if resolved.reply.Value? {
      JudgeAlike(p, m, x.body, seen, resolved.reply.value, resolved.run);
    }
  }

  lemma {:induction false} ReadAlike<W>(p: Job<W>, m: Job<W>, names: seq<string>, a: seq<Step>, b: seq<Step>,
                                        seen: Observation, run: Run<W>)
    requires Alike(p, m) && SameBodies(a, b)
    requires !ReadAgain(m, names, b, seen, run).run.marked
    ensures ReadAgain(m, names, b, seen, run) == ReadAgain(p, names, a, seen, run)
    decreases |names|
  {
    if names != [] {
      LastAlike(a, b, names[0]);
      var x, y := LastExtraction(a, names[0]), LastExtraction(b, names[0]);
      if x.Some? && x.value.body.target.Some? {
        ReadOn(m, names, b, seen, run, y.value);
        ReadOn(p, names, a, seen, run, x.value);
        ReadNextAlike(p, m, x.value, y.value, seen, run);
        var next := ReadNext(m, y.value, seen, run);
        if next.reply.Value? {
          ReadAlike(p, m, names[1..], a, b, seen, next.run);
        }
      }
    }
  }

  lemma RetryAlike<W>(p: Job<W>, m: Job<W>, k: Continuation<W>, s: Step, t: Step, seen: Observation, run: Run<W>)
    requires Alike(p, m) && t.body == s.body
    ensures ReadyToRetry(m, k, t, seen, run) == ReadyToRetry(p, k, s, seen, run)
  {
    AllEvaluateAlike(p, m, s.body.preconditions, run);
  }

  lemma StillAlike<W>(p: Job<W>, m: Job<W>, k: Continuation<W>, s: Step, t: Step, run: Run<W>)
    requires Alike(p, m) && t.body == s.body
    ensures StillConfirmed(m, k, t, run) == StillConfirmed(p, k, s, run)
  {
    AllAwaitedAlike(p, m, s.body.postconditions, run);
  }

  lemma ContinueAlike<W>(p: Job<W>, m: Job<W>, k: Continuation<W>, s: Step, t: Step, run: Run<W>)
    requires Matched(p, m, s, t, run) && !ReadyToContinue(m, k, t, run).run.marked
    ensures ReadyToContinue(m, k, t, run) == ReadyToContinue(p, k, s, run)
  {
    IdentityEvaluatesAlike(p, m, s.body.postconditions, run);
    var identity := IdentityEvaluates(p, s.body.postconditions, run);
    if identity.reply == Value(true) {
      ContinueUnmarkedOutcome(m, k, t, run);
      OutcomeAlike(p, m, s, t, identity.run);
      var outcome := Detect(p, Outcomes, s.outcomeRefs, Detectors(p.artifact.outcomes), identity.run);
      if outcome.reply == Value(None) {
        StillAlike(p, m, k, s, t, outcome.run);
      }
    }
  }

  lemma ContinueUnmarkedOutcome<W>(m: Job<W>, k: Continuation<W>, t: Step, run: Run<W>)
    requires !ReadyToContinue(m, k, t, run).run.marked
             && IdentityEvaluates(m, t.body.postconditions, run).reply == Value(true)
    ensures
      var identity := IdentityEvaluates(m, t.body.postconditions, run);
      !Detect(m, Outcomes, t.outcomeRefs, Detectors(m.artifact.outcomes), identity.run).run.marked
  {
  }

  /** The outputs a resume check reads again are the same for both artifacts. */
  ghost predicate SameNeeds<W>(p: Job<W>, m: Job<W>) {
    forall i, retryStep :: 0 <= i < |p.artifact.steps| == |m.artifact.steps| ==>
      OutputsOf(ResumeConditions(m.artifact, m.artifact.steps[i], retryStep))
        == OutputsOf(ResumeConditions(p.artifact, p.artifact.steps[i], retryStep))
  }

  lemma BodiesAgree(p: Artifact, m: Artifact, n: nat)
    requires n <= |p.steps| == |m.steps|
    requires forall i :: 0 <= i < |p.steps| ==> Paired(p, m, p.steps[i], m.steps[i])
    ensures SameBodies(p.steps[..n], m.steps[..n])
  {
    forall i | 0 <= i < n ensures p.steps[i].body == m.steps[i].body && p.steps[i].id == m.steps[i].id {
      assert Paired(p, m, p.steps[i], m.steps[i]);
    }
  }

  lemma NamesAlike<W>(p: Job<W>, m: Job<W>, k: Continuation<W>)
    requires Alike(p, m) && SameNeeds(p, m) && k.index < |p.artifact.steps| == |m.artifact.steps|
    ensures NamesNeeded(m, k) == NamesNeeded(p, k)
  {
    assert OutputsOf(ResumeConditions(p.artifact, p.artifact.steps[k.index], k.retryStep))
        == OutputsOf(ResumeConditions(m.artifact, m.artifact.steps[k.index], k.retryStep));
  }

  lemma NeededAlike<W>(p: Job<W>, m: Job<W>, k: Continuation<W>, seen: Observation, run: Run<W>)
    requires Alike(p, m) && SameNeeds(p, m) && k.index < |p.artifact.steps| == |m.artifact.steps|
    requires SameBodies(p.artifact.steps[..k.index + 1], m.artifact.steps[..k.index + 1])
    requires !ReadForCheck(m, k, seen, run).run.marked
    ensures ReadForCheck(m, k, seen, run) == ReadForCheck(p, k, seen, run)
  {
    NamesAlike(p, m, k);
    ReadAlike(p, m, NamesNeeded(p, k), p.artifact.steps[..k.index + 1], m.artifact.steps[..k.index + 1], seen,
              run.(outputs := map[]));
  }

  lemma CheckedAlike<W>(p: Job<W>, m: Job<W>, k: Continuation<W>, s: Step, t: Step, seen: Observation, read: Out<W, ()>)
    requires Matched(p, m, s, t, read.run) && !Checked(m, k, t, seen, read).run.marked
    ensures Checked(m, k, t, seen, read) == Checked(p, k, s, seen, read)
  {
    if read.reply.Value? {
      if k.retryStep {
        RetryAlike(p, m, k, s, t, seen, read.run);
      } else {
        ContinueAlike(p, m, k, s, t, read.run);
      }
    }
  }

  lemma CheckedMarks<W>(job: Job<W>, k: Continuation<W>, step: Step, seen: Observation, read: Out<W, ()>)
    ensures read.run.marked ==> Checked(job, k, step, seen, read).run.marked
  {
  }

  lemma ValidateAlike<W>(p: Job<W>, m: Job<W>, k: Continuation<W>, run: Run<W>)
    requires Lined(p, m) && SameNeeds(p, m) && k.index < |p.artifact.steps| == |m.artifact.steps|
    requires !ValidateResume(m, k, run).run.marked
    ensures ValidateResume(m, k, run) == ValidateResume(p, k, run)
  {
    var s, t := p.artifact.steps[k.index], m.artifact.steps[k.index];
    var seen := Observe(p, run);
    assert Observe(m, run) == seen;
    if seen.reply.Value? && seen.reply.value.locationAllowed {
      var read := ReadForCheck(m, k, seen.reply.value, seen.run);
      CheckedMarks(m, k, t, seen.reply.value, read);
      BodiesAgree(p.artifact, m.artifact, k.index + 1);
      NeededAlike(p, m, k, seen.reply.value, seen.run);
      CheckedAlike(p, m, k, s, t, seen.reply.value, read);
    }
  }

  lemma ResumeAlike<W>(p: Job<W>, m: Job<W>, k: Continuation<W>, checked: Out<W, Option<Id>>, version: nat)
    requires Lined(p, m) && k.index < |p.artifact.steps| == |m.artifact.steps|
    requires checked.reply.Value? ==> AllFrom(checked.run.outputs, checked.run.epoch)
    requires !RunOf(Resume(m, k, checked, version)).marked
    ensures Resume(m, k, checked, version) == Resume(p, k, checked, version)
  {
    if checked.reply.Value? && checked.reply.value.None? {
      DriveAlike(p, m, checked.run.(lease := Lease(version, true)), version, StartAt(k), (k.index, k.retryAttempt));
    }
  }

  lemma ResumeMarks<W>(job: Job<W>, k: Continuation<W>, checked: Out<W, Option<Id>>, version: nat)
    requires k.index < |job.artifact.steps| && checked.run.marked
    ensures RunOf(Resume(job, k, checked, version)).marked
  {
    if checked.reply.Value? && checked.reply.value.None? {
      DriveMarks(job, checked.run.(lease := Lease(version, true)), version, StartAt(k), (k.index, k.retryAttempt));
    }
  }

  lemma ContinueUnmarked<W>(m: Job<W>, k: Continuation<W>, back: Handback<W>)
    requires k.index < |m.artifact.steps| && !RunOf(Continue(m, k, back)).marked
    ensures !k.run.marked && !ValidateResume(m, k, Returned(k, back)).run.marked
  {
    var checked := ValidateResume(m, k, Returned(k, back));
    if checked.run.marked {
      ResumeMarks(m, k, checked, back.version);
    }
  }

  lemma FirstSegmentAlike<W>(p: Job<W>, m: Job<W>, world: W)
    requires Lined(p, m) && |p.artifact.steps| == |m.artifact.steps|
    requires m.artifact.preconditions == p.artifact.preconditions && m.artifact.variants == p.artifact.variants
    requires m.tenant == p.tenant && m.inputsValid == p.inputsValid && !RunOf(Execute(m, world)).marked
    ensures Execute(m, world) == Execute(p, world)
  {
    AllEvaluateAlike(p, m, p.artifact.preconditions, Begin(world));
    var ready := AllEvaluate(p, p.artifact.preconditions, Begin(world));
    if m.inputsValid && m.tenant in m.artifact.variants && ready.reply == Value(true) {
      DriveAlike(p, m, ready.run, 1, 0, (0, 1));
    }
  }

  lemma {:induction false} LifeAlike<W>(p: Job<W>, m: Job<W>, world: W, backs: seq<Handback<W>>)
    requires Lined(p, m) && SameNeeds(p, m) && |p.artifact.steps| == |m.artifact.steps|
    requires m.artifact.preconditions == p.artifact.preconditions && m.artifact.variants == p.artifact.variants
    requires m.tenant == p.tenant && m.inputsValid == p.inputsValid && !RunOf(Life(m, world, backs)).marked
    ensures Life(m, world, backs) == Life(p, world, backs)
  {
    if backs == [] {
      FirstSegmentAlike(p, m, world);
    } else {
      var before, back := Life(m, world, backs[..|backs| - 1]), backs[|backs| - 1];
      if before.PausedAt? && before.kept.index < |m.artifact.steps| {
        var run := Returned(before.kept, back);
        ContinueUnmarked(m, before.kept, back);
        LifeAlike(p, m, world, backs[..|backs| - 1]);
        ValidateAlike(p, m, before.kept, run);
        ResumeAlike(p, m, before.kept, ValidateResume(p, before.kept, run), back.version);
      } else {
        LifeAlike(p, m, world, backs[..|backs| - 1]);
      }
    }
  }

  // ---------------------------------------------------------------- an extension lines up with its base

  lemma {:induction false} DetectorsAt(branches: seq<Branch>, i: nat)
    requires Unique(BranchCodes(branches)) && i < |branches|
    ensures branches[i].code in Detectors(branches) && Detectors(branches)[branches[i].code] == branches[i].detect
  {
    var n := |branches| - 1;
    assert BranchCodes(branches[..n]) == BranchCodes(branches)[..n];
    if i < n {
      DetectorsAt(branches[..n], i);
      assert BranchCodes(branches)[i] != BranchCodes(branches)[n];
    }
  }

  lemma BranchesWider(base: seq<Branch>, more: seq<Branch>, s: seq<Id>, t: seq<Id>)
    requires base <= more && Unique(BranchCodes(base)) && Unique(BranchCodes(more)) && s <= t
    requires forall ref <- s :: ref in BranchCodes(base)
    requires forall ref <- t[|s|..] :: ref in BranchCodes(more[|base|..])
    ensures Wider(BranchCodes(base), s, Detectors(base), t, Detectors(more))
  {
    forall ref <- s
      ensures ref in Detectors(base) && ref in Detectors(more) && Detectors(base)[ref] == Detectors(more)[ref]
    {
      var i :| 0 <= i < |base| && BranchCodes(base)[i] == ref;
      DetectorsAt(base, i);
      DetectorsAt(more, i);
    }
    forall ref <- t[|s|..] ensures ref !in BranchCodes(base) && ref in Detectors(more) {
      var added := more[|base|..];
      var i :| 0 <= i < |added| && BranchCodes(added)[i] == ref;
      assert added[i] == more[|base| + i];
      DetectorsAt(more, |base| + i);
      forall j | 0 <= j < |base| ensures BranchCodes(base)[j] != ref {
        assert BranchCodes(more)[j] != BranchCodes(more)[|base| + i];
      }
    }
  }

  lemma RecoveriesWider(base: seq<Recovery>, more: seq<Recovery>, s: seq<Id>, t: seq<Id>)
    requires base <= more && Unique(RecoveryIds(base)) && Unique(RecoveryIds(more)) && s <= t
    requires forall ref <- s :: ref in RecoveryIds(base)
    requires forall ref <- t[|s|..] :: exists r :: |base| <= r < |more| && more[r].id == ref
    ensures Wider(RecoveryIds(base), s, Triggers(base), t, Triggers(more))
    ensures forall ref <- s :: FindRecovery(more, ref) == FindRecovery(base, ref)
  {
    forall ref <- s
      ensures ref in Triggers(base) && ref in Triggers(more) && Triggers(base)[ref] == Triggers(more)[ref]
      ensures FindRecovery(more, ref) == FindRecovery(base, ref)
    {
      var i :| 0 <= i < |base| && RecoveryIds(base)[i] == ref;
      TriggersAt(base, i);
      TriggersAt(more, i);
    }
    forall ref <- t[|s|..] ensures ref !in RecoveryIds(base) && ref in Triggers(more) {
      var r :| |base| <= r < |more| && more[r].id == ref;
      TriggersAt(more, r);
      forall j | 0 <= j < |base| ensures RecoveryIds(base)[j] != ref {
        assert RecoveryIds(more)[j] != RecoveryIds(more)[r];
      }
    }
  }

  lemma BranchCodesUnique(a: Artifact)
    requires Unique(BranchCodes(a.outcomes + a.failures))
    ensures Unique(BranchCodes(a.outcomes)) && Unique(BranchCodes(a.failures))
  {
    var codes, n := BranchCodes(a.outcomes + a.failures), |a.outcomes|;
    forall i, j | 0 <= i < j < |a.outcomes| ensures BranchCodes(a.outcomes)[i] != BranchCodes(a.outcomes)[j] {
      assert codes[i] != codes[j];
    }
    forall i, j | 0 <= i < j < |a.failures| ensures BranchCodes(a.failures)[i] != BranchCodes(a.failures)[j] {
      assert codes[n + i] != codes[n + j];
    }
  }

  /** The branches an extension declares are those of the base and then some others. */
  ghost predicate Enlarged(p: Artifact, m: Artifact) {
    && p.outcomes <= m.outcomes && Unique(BranchCodes(p.outcomes)) && Unique(BranchCodes(m.outcomes))
    && p.failures <= m.failures && Unique(BranchCodes(p.failures)) && Unique(BranchCodes(m.failures))
    && p.recoveries <= m.recoveries && Unique(RecoveryIds(p.recoveries)) && Unique(RecoveryIds(m.recoveries))
  }

  lemma ExtensionEnlarges(p: Artifact, m: Artifact)
    requires Extends(p, m)
    ensures Enlarged(p, m)
  {
    BranchCodesUnique(p);
    BranchCodesUnique(m);
  }

  /** A step of the base, in the base with its references `s` and in the extension with its references `t`. */
  lemma StepLinesUp(p: Artifact, m: Artifact, s: Step, t: Step)
    requires Enlarged(p, m) && RefsKnown(p, s) && t.id == s.id && t.body == s.body
    requires s.outcomeRefs <= t.outcomeRefs && s.failureRefs <= t.failureRefs && s.recoveryRefs <= t.recoveryRefs
    requires forall ref <- t.outcomeRefs[|s.outcomeRefs|..] :: ref in BranchCodes(m.outcomes[|p.outcomes|..])
    requires forall ref <- t.failureRefs[|s.failureRefs|..] :: ref in BranchCodes(m.failures[|p.failures|..])
    requires forall ref <- t.recoveryRefs[|s.recoveryRefs|..] ::
               exists r :: |p.recoveries| <= r < |m.recoveries| && m.recoveries[r].id == ref
    ensures Paired(p, m, s, t)
  {
    assert Wider(Declared(p, Outcomes), s.outcomeRefs, Detectors(p.outcomes), t.outcomeRefs, Detectors(m.outcomes)) by {
      BranchesWider(p.outcomes, m.outcomes, s.outcomeRefs, t.outcomeRefs);
    }
    assert Wider(Declared(p, Failures), s.failureRefs, Detectors(p.failures), t.failureRefs, Detectors(m.failures)) by {
      BranchesWider(p.failures, m.failures, s.failureRefs, t.failureRefs);
    }
    RecoveriesWider(p.recoveries, m.recoveries, s.recoveryRefs, t.recoveryRefs);
  }

  lemma MainLinesUp(p: Artifact, m: Artifact, i: nat)
    requires Extends(p, m) && i < |p.steps| == |m.steps|
    ensures Paired(p, m, p.steps[i], m.steps[i])
  {
    var d, s, t := DraftOf(m), p.steps[i], m.steps[i];
    assert StepGrown(p, d, i);
    assert StepAllowed(p, s);
    forall ref <- t.recoveryRefs[|s.recoveryRefs|..]
      ensures exists r :: |p.recoveries| <= r < |m.recoveries| && m.recoveries[r].id == ref
    {
      assert ResumesNext(p, d, i, ref);
    }
    ExtensionEnlarges(p, m);
    StepLinesUp(p, m, s, t);
  }

  /** The extension on the base's surface, apart from policy, and on the lookout. */
  ghost predicate Watching<W>(p: Job<W>, m: Job<W>) {
    && p.watch == Idle()
    && m == p.(artifact := m.artifact, surface := p.surface.(policy := m.surface.policy), watch := Lookout(p))
  }

  lemma LinesUp<W>(p: Job<W>, m: Job<W>)
    requires Extends(p.artifact, m.artifact) && Watching(p, m)
    ensures |p.artifact.steps| == |m.artifact.steps| && Lined(p, m)
  {
    var a, b := p.artifact, m.artifact;
    forall i | 0 <= i < |a.steps| ensures Paired(a, b, a.steps[i], b.steps[i]) {
      MainLinesUp(a, b, i);
    }
    ExtensionEnlarges(a, b);
    forall r <- a.recoveries, step <- r.steps ensures Paired(a, b, step, step) {
      assert StepAllowed(a, step);
      StepLinesUp(a, b, step, step);
    }
    assert StepIds(b.steps) == StepIds(a.steps);
  }

  lemma AddedCodeDiffers(base: Artifact, more: Artifact, b: Branch, ref: Id)
    requires Extends(base, more) && b in base.outcomes && ref in BranchCodes(more.outcomes[|base.outcomes|..])
    ensures ref != b.code
  {
    var n, codes := |base.outcomes|, BranchCodes(more.outcomes + more.failures);
    var j :| 0 <= j < |more.outcomes[n..]| && BranchCodes(more.outcomes[n..])[j] == ref;
    var k :| 0 <= k < n && base.outcomes[k] == b;
    assert codes[k] != codes[n + j];
  }

  lemma BaseCodesStay(base: Artifact, more: Artifact, i: nat, b: Branch)
    requires Extends(base, more) && i < |base.steps| && b in base.outcomes
    ensures b.code in more.steps[i].outcomeRefs ==> b.code in base.steps[i].outcomeRefs
  {
    var s, t := base.steps[i], more.steps[i];
    assert StepGrown(base, DraftOf(more), i);
    assert t.outcomeRefs == s.outcomeRefs + t.outcomeRefs[|s.outcomeRefs|..];
    forall ref <- t.outcomeRefs[|s.outcomeRefs|..] ensures ref != b.code {
      AddedCodeDiffers(base, more, b, ref);
    }
  }

  lemma CodesAgree(base: Artifact, more: Artifact, i: nat)
    requires Extends(base, more) && i < |base.steps|
    ensures forall b <- base.outcomes :: b.code in base.steps[i].outcomeRefs <==> b.code in more.steps[i].outcomeRefs
  {
    assert StepGrown(base, DraftOf(more), i);
    forall b <- base.outcomes
      ensures b.code in base.steps[i].outcomeRefs <==> b.code in more.steps[i].outcomeRefs
    {
      BaseCodesStay(base, more, i, b);
    }
  }

  lemma AddedReadNothing(base: Artifact, more: Artifact)
    requires Extends(base, more)
    ensures forall b <- more.outcomes[|base.outcomes|..] :: ConditionOutputs(b.detect) == {}
  {
    forall b <- more.outcomes[|base.outcomes|..] ensures ConditionOutputs(b.detect) == {} {
      assert Distinctive(b.detect);
    }
  }

  lemma DetectedNeeds(base: Artifact, more: Artifact, i: nat)
    requires Extends(base, more) && i < |base.steps|
    ensures OutputsOf(DetectedAfter(more.outcomes, more.steps[i].outcomeRefs))
         == OutputsOf(DetectedAfter(base.outcomes, base.steps[i].outcomeRefs))
  {
    CodesAgree(base, more, i);
    AddedReadNothing(base, more);
    var added := more.outcomes[|base.outcomes|..];
    DetectedAlike(base.outcomes, added, base.steps[i].outcomeRefs, more.steps[i].outcomeRefs);
    assert base.outcomes + added == more.outcomes;
  }

  lemma NeedsAgree(base: Artifact, more: Artifact, i: nat, retryStep: bool)
    requires Extends(base, more) && i < |base.steps| == |more.steps|
    ensures OutputsOf(ResumeConditions(more, more.steps[i], retryStep))
            == OutputsOf(ResumeConditions(base, base.steps[i], retryStep))
  {
    var s, t := base.steps[i], more.steps[i];
    assert StepGrown(base, DraftOf(more), i);
    DetectedNeeds(base, more, i);
    var judged := if retryStep then s.body.preconditions else s.body.postconditions;
    OutputsSplit(judged, DetectedAfter(base.outcomes, s.outcomeRefs));
    OutputsSplit(judged, DetectedAfter(more.outcomes, t.outcomeRefs));
  }

  /**
  A whole run of an extension, with any number of handoffs, in which every question about an added branch
  was answered by a plain no and policy never decided otherwise than for the base, is the run of the base:
  the same dispatches, effects, outputs, recoveries, pauses and result. Nothing is asked of the surface
  outside that run.
  */
  lemma ExtensionIsConservative<W>(p: Job<W>, m: Job<W>, world: W, backs: seq<Handback<W>>)
    requires Extends(p.artifact, m.artifact) && Watching(p, m) && !RunOf(Life(m, world, backs)).marked
    ensures Life(m, world, backs) == Life(p, world, backs)
  {
    LinesUp(p, m);
    forall i, retryStep | 0 <= i < |p.artifact.steps|
      ensures OutputsOf(ResumeConditions(m.artifact, m.artifact.steps[i], retryStep))
           == OutputsOf(ResumeConditions(p.artifact, p.artifact.steps[i], retryStep))
    {
      NeedsAgree(p.artifact, m.artifact, i, retryStep);
    }
    LifeAlike(p, m, world, backs);
  }

  /**
  Merging is a conservative extension. Whatever the scenarios are, if the merge accepts them, a run of the
  merged artifact in which no added branch showed is the run of the primary.
  */
  lemma MergingIsConservative<W>(p: Job<W>, m: Job<W>, scenarios: seq<Scenario>, world: W, backs: seq<Handback<W>>)
    requires Validated(p.artifact) && Merged(p.artifact, scenarios) == Ok(m.artifact)
    requires Watching(p, m) && !RunOf(Life(m, world, backs)).marked
    ensures Life(m, world, backs) == Life(p, world, backs)
  {
    MergeExtends(p.artifact, scenarios);
    ExtensionIsConservative(p, m, world, backs);
  }

  /** On honest surfaces a merged step acts at most once if no recovery of the primary leads back to it. */
  lemma MergedRunsActAtMostOnce<W(!new)>(job: Job<W>, hot: W -> bool, primary: Artifact, scenarios: seq<Scenario>,
                                         i: nat, world: W, backs: seq<Handback<W>>)
    requires Validated(primary) && Merged(primary, scenarios) == Ok(job.artifact) && Honest(job, hot)
    requires i < |primary.steps| && Unrevisited(primary, i)
    ensures |job.artifact.steps| == |primary.steps|
    ensures multiset(RunOf(Life(job, world, backs)).effects)[job.artifact.steps[i].id] <= 1
  {
    MergeExtends(primary, scenarios);
    assert StepGrown(primary, DraftOf(job.artifact), i);
    ExtensionKeepsPast(primary, job.artifact, i);
    HonestSurfacesActAtMostOnce(job, hot, i, world, backs);
  }

  lemma MergedIsSingle(primary: Artifact, scenarios: seq<Scenario>, merged: Artifact, i: nat)
    requires Validated(primary) && Merged(primary, scenarios) == Ok(merged) && i < |primary.steps|
    ensures Validated(merged) && |merged.steps| == |primary.steps|
    ensures Single(merged, i) <==> Single(primary, i)
  {
    MergeExtends(primary, scenarios);
    assert StepGrown(primary, DraftOf(merged), i);
    ExtensionKeepsPast(primary, merged, i);
  }

  /** Merging makes no main step repeatable and leads back to none: which steps can act twice the primary decides. */
  lemma MergedStepActsOnceExactly(primary: Artifact, scenarios: seq<Scenario>, merged: Artifact, i: nat)
    requires Validated(primary) && Merged(primary, scenarios) == Ok(merged) && i < |primary.steps|
    ensures |merged.steps| == |primary.steps|
    ensures (forall job: Job<Script>, script, backs | job.artifact == merged ::
               multiset(RunOf(Life(job, script, backs)).effects)[merged.steps[i].id] <= 1)
            <==> Single(primary, i)
  {
    MergedIsSingle(primary, scenarios, merged, i);
    StepActsOnceExactly(merged, i);
  }
}
