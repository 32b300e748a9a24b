/** Theorems about whole replays: every surface, every artifact, every sequence of human handbacks. */
module ReplayProofs {
  import opened Prelude
  import opened Capability
  import opened Replay

  // ---------------------------------------------------------------- validated artifacts are closed

  lemma {:induction false} DetectorsCover(branches: seq<Branch>, code: Id)
    ensures code in Detectors(branches) <==> code in BranchCodes(branches)
  {
    if branches != [] {
      var n := |branches| - 1;
      DetectorsCover(branches[..n], code);
      assert BranchCodes(branches) == BranchCodes(branches[..n]) + [branches[n].code];
    }
  }

  lemma {:induction false} TriggersCover(recoveries: seq<Recovery>, id: Id)
    ensures id in Triggers(recoveries) <==> id in RecoveryIds(recoveries)
    ensures FindRecovery(recoveries, id).Some? <==> id in RecoveryIds(recoveries)
  {
    if recoveries != [] {
      var n := |recoveries| - 1;
      TriggersCover(recoveries[..n], id);
      assert RecoveryIds(recoveries) == RecoveryIds(recoveries[..n]) + [recoveries[n].id];
    }
  }

  lemma {:induction false} TriggersAt(recoveries: seq<Recovery>, i: nat)
    requires Unique(RecoveryIds(recoveries)) && i < |recoveries|
    ensures recoveries[i].id in Triggers(recoveries) && Triggers(recoveries)[recoveries[i].id] == recoveries[i].trigger
    ensures FindRecovery(recoveries, recoveries[i].id) == Some(recoveries[i])
  {
    var n := |recoveries| - 1;
    assert RecoveryIds(recoveries[..n]) == RecoveryIds(recoveries)[..n];
    if i < n {
      TriggersAt(recoveries[..n], i);
      assert RecoveryIds(recoveries)[i] != RecoveryIds(recoveries)[n];
    }
  }

  lemma RefsAreKnown(a: Artifact, step: Step)
    requires RefsKnown(a, step)
    ensures Known(a, step)
  {
    forall id <- step.outcomeRefs ensures id in Detectors(a.outcomes) { DetectorsCover(a.outcomes, id); }
    forall id <- step.failureRefs ensures id in Detectors(a.failures) { DetectorsCover(a.failures, id); }
    forall id <- step.recoveryRefs
      ensures id in Triggers(a.recoveries) && FindRecovery(a.recoveries, id).Some?
    {
      TriggersCover(a.recoveries, id);
    }
  }

  lemma ValidatedIsKnown(a: Artifact)
    requires Validated(a)
    ensures AllKnown(a)
  {
    forall step <- a.steps ensures Known(a, step) { RefsAreKnown(a, step); }
    forall r <- a.recoveries, step <- r.steps ensures Known(a, step) { RefsAreKnown(a, step); }
  }

  // ---------------------------------------------------------------- one round of the main loop

  lemma RoundSettles<W>(job: Job<W>, run: Run<W>, version: nat, index: nat, first: (nat, nat))
    requires index < |job.artifact.steps|
    ensures DriveOnce(job, run, version, index, first)
            == Settle(job, ExecuteMain(job, job.artifact.steps[index], run, version, AttemptAt(index, first)), version,
                      index)
  {
  }

  /** A step that is done renews the lease and moves on. */
  lemma DoneAdvances<W>(job: Job<W>, run: Run<W>, version: nat, index: nat, first: (nat, nat), last: Run<W>)
    requires index < |job.artifact.steps|
    requires ExecuteStep(job, job.artifact.steps[index], run.(entries := run.entries + 1), version,
                         AttemptAt(index, first), true, true) == Out(Value(Done), last)
    requires last.lease == Lease(version, true) && !job.surface.leaseExpired(last.world)
    ensures DriveOnce(job, run, version, index, first)
            == Next(last.(lease := Lease(version + 1, true)), version + 1, index + 1)
  {
    MainIsFinish(job, job.artifact.steps[index], run, version, AttemptAt(index, first));
    assert ExecuteMain(job, job.artifact.steps[index], run, version, AttemptAt(index, first))
           == Out(Value(Advance), last);
    assert Heartbeat(job, last, version) == Out(Value(version + 1), last.(lease := Lease(version + 1, true)));
  }

  /** A recovery that was selected and restored the page makes the step jump. */
  lemma RecoveryJumps<W>(job: Job<W>, step: Step, run: Run<W>, version: nat, r: Recovery, m: Run<W>, later: nat,
                         b: Run<W>)
    requires ExecuteStep(job, step, run.(entries := run.entries + 1), version, 1, true, true)
             == Out(Value(Recover(r.id)), m)
    requires FindRecovery(job.artifact.recoveries, r.id) == Some(r)
    requires ExecuteRecovery(job, r, m, version) == Out(Value(Restored(later)), b)
    ensures ExecuteMain(job, step, run, version, 1) == Out(Value(Jump(r.resumeAt, later)), b)
  {
    MainIsFinish(job, step, run, version, 1);
  }

  lemma RecoveryGoesOn<W>(job: Job<W>, steps: seq<Step>, run: Run<W>, version: nat, m: Run<W>)
    requires steps != [] && ExecuteStep(job, steps[0], run, version, 1, false, false) == Out(Value(Done), m)
    requires m.lease == Lease(version, true) && !job.surface.leaseExpired(m.world)
    ensures RecoverFrom(job, steps, run, version)
            == RecoverFrom(job, steps[1..], m.(lease := Lease(version + 1, true)), version + 1)
  {
    RecoverNext(job, steps, run, version);
    assert Heartbeat(job, m, version) == Out(Value(version + 1), m.(lease := Lease(version + 1, true)));
  }

  /** A jump renews the lease too. */
  lemma JumpLands<W>(job: Job<W>, main: Out<W, MainEnd>, version: nat, j: nat, k: nat)
    requires j < |job.artifact.steps| && main.reply.Value? && main.reply.value.Jump?
    requires main.run.lease == Lease(main.reply.value.version, true) && !job.surface.leaseExpired(main.run.world)
    requires IndexOf(job.artifact.steps, main.reply.value.to) == Some(k)
    ensures
      var again := main.reply.value.version + 1;
      Settle(job, main, version, j) == Next(main.run.(lease := Lease(again, true)), again, k)
  {
  }

  lemma DriveGoesOn<W>(job: Job<W>, run: Run<W>, version: nat, index: nat, first: (nat, nat))
    requires index < |job.artifact.steps|
    ensures
      Drive(job, run, version, index, first) ==
        match DriveOnce(job, run, version, index, first)
        case Over(end) => end
        case Next(run', version', index') => Drive(job, run', version', index', first)
  {
  }

  // ---------------------------------------------------------------- nothing but an expired lease stops a run

  ghost predicate SafeEnd<W>(job: Job<W>, end: RunEnd<W>) {
    && (end.Broken? ==> end.crash.LeaseExpired?)
    && (end.PausedAt? ==> end.kept.index < |job.artifact.steps| && 1 <= end.kept.retryAttempt <= 5)
  }

  lemma SettleSafe<W>(job: Job<W>, step: Step, run: Run<W>, main: Out<W, MainEnd>, version: nat, index: nat,
                      attempt: nat)
    requires AllKnown(job.artifact) && index < |job.artifact.steps| && step.body.retry.maxAttempts <= 5
    requires MainEnding(job, step, run, main, version, attempt) && Orderly(main.reply)
    requires run.lease == Lease(version, true) && 1 <= attempt <= 5
    ensures
      match Settle(job, main, version, index)
      case Over(end) => SafeEnd(job, end)
      case Next(run', version', _) => run'.lease == Lease(version', true)
  {
    if main.reply.Value? && main.reply.value.Jump? {
      var r :| Spent(job, step, run, main.run, r) && r.resumeAt == main.reply.value.to;
      assert r.resumeAt in StepIds(job.artifact.steps);
    }
  }

  ghost predicate FewTries(a: Artifact) {
    forall i :: 0 <= i < |a.steps| ==> a.steps[i].body.retry.maxAttempts <= 5
  }

  lemma ValidatedTriesFew(a: Artifact)
    requires Validated(a)
    ensures FewTries(a)
  {
    forall i | 0 <= i < |a.steps| ensures a.steps[i].body.retry.maxAttempts <= 5 {
      assert StepAllowed(a, a.steps[i]);
    }
  }

  lemma RoundSafe<W>(job: Job<W>, run: Run<W>, version: nat, index: nat, first: (nat, nat))
    requires FewTries(job.artifact) && AllKnown(job.artifact) && index < |job.artifact.steps|
    requires run.lease == Lease(version, true) && 1 <= first.1 <= 5
    ensures
      match DriveOnce(job, run, version, index, first)
      case Over(end) => SafeEnd(job, end)
      case Next(run', version', _) => run'.lease == Lease(version', true)
  {
    var step, attempt := job.artifact.steps[index], AttemptAt(index, first);
    SettleSafe(job, step, run, ExecuteMain(job, step, run, version, attempt), version, index, attempt);
  }

  lemma {:induction false} DriveSafe<W>(job: Job<W>, run: Run<W>, version: nat, index: nat, first: (nat, nat))
    requires FewTries(job.artifact) && AllKnown(job.artifact) && index <= |job.artifact.steps|
    requires run.lease == Lease(version, true) && 1 <= first.1 <= 5
    ensures SafeEnd(job, Drive(job, run, version, index, first))
    decreases Budget(job.artifact.recoveries, run.uses), |job.artifact.steps| - index
  {
    if index < |job.artifact.steps| {
      RoundSafe(job, run, version, index, first);
      match DriveOnce(job, run, version, index, first) {
        case Over(_) =>
        case Next(run', version', index') => DriveSafe(job, run', version', index', first);
      }
    }
  }

  lemma ResumeSafe<W>(job: Job<W>, k: Continuation<W>, checked: Out<W, Option<Id>>, version: nat)
    requires FewTries(job.artifact) && AllKnown(job.artifact)
    requires k.index < |job.artifact.steps| && 1 <= k.retryAttempt <= 5 && !checked.reply.Crashed?
    ensures SafeEnd(job, Resume(job, k, checked, version))
  {
    if checked.reply.Value? && checked.reply.value.None? {
      var run := checked.run.(lease := Lease(version, true));
      assert Resume(job, k, checked, version) == Drive(job, run, version, StartAt(k), (k.index, k.retryAttempt));
      DriveSafe(job, run, version, StartAt(k), (k.index, k.retryAttempt));
    }
  }

  lemma FirstSegmentSafe<W>(job: Job<W>, world: W)
    requires FewTries(job.artifact) && AllKnown(job.artifact)
    ensures SafeEnd(job, Execute(job, world))
  {
    var ready := AllEvaluate(job, job.artifact.preconditions, Begin(world));
    if ready.reply == Value(true) {
      DriveSafe(job, ready.run, 1, 0, (0, 1));
    }
  }

  /**
  A whole run of a validated artifact never raises anything but an expired lease: the engine never
  quotes a lease version other than the current one, never misses a reference, and never nests a
  recovery, through retries, recoveries, pauses and resumptions.
  */
  lemma {:induction false} OnlyExpiryStopsARun<W>(job: Job<W>, world: W, backs: seq<Handback<W>>)
    requires Validated(job.artifact)
    ensures SafeEnd(job, Life(job, world, backs))
  {
    ValidatedIsKnown(job.artifact);
    ValidatedTriesFew(job.artifact);
    if backs == [] {
      FirstSegmentSafe(job, world);
    } else {
      OnlyExpiryStopsARun(job, world, backs[..|backs| - 1]);
      var before := Life(job, world, backs[..|backs| - 1]);
      if before.PausedAt? {
        var k, back := before.kept, backs[|backs| - 1];
        ResumeSafe(job, k, ValidateResume(job, k, Returned(k, back)), back.version);
      }
    }
  }

  // ---------------------------------------------------------------- no stale value crosses a handoff

  ghost predicate Fresh<W>(run: Run<W>) {
    !run.stale && AllFrom(run.outputs, run.epoch)
  }

  ghost predicate FreshEnd<W>(end: RunEnd<W>, epoch: nat) {
    && Fresh(RunOf(end)) && RunOf(end).epoch == epoch
    && (end.Ended? && end.result.Success? ==> AllFrom(end.result.outputs, epoch))
  }

  lemma SettleFresh<W>(job: Job<W>, step: Step, run: Run<W>, main: Out<W, MainEnd>, version: nat, index: nat,
                       attempt: nat)
    requires index < |job.artifact.steps| && MainEnding(job, step, run, main, version, attempt) && Fresh(run)
    ensures
      match Settle(job, main, version, index)
      case Over(end) => FreshEnd(end, run.epoch)
      case Next(run', _, _) => Fresh(run') && run'.epoch == run.epoch
  {
  }

  lemma RoundFresh<W>(job: Job<W>, run: Run<W>, version: nat, index: nat, first: (nat, nat))
    requires index < |job.artifact.steps| && Fresh(run)
    ensures
      match DriveOnce(job, run, version, index, first)
      case Over(end) => FreshEnd(end, run.epoch)
      case Next(run', _, _) => Fresh(run') && run'.epoch == run.epoch
  {
    var step, attempt := job.artifact.steps[index], AttemptAt(index, first);
    SettleFresh(job, step, run, ExecuteMain(job, step, run, version, attempt), version, index, attempt);
  }

  lemma {:induction false} DriveFresh<W>(job: Job<W>, run: Run<W>, version: nat, index: nat, first: (nat, nat))
    requires index <= |job.artifact.steps| && Fresh(run)
    ensures FreshEnd(Drive(job, run, version, index, first), run.epoch)
    decreases Budget(job.artifact.recoveries, run.uses), |job.artifact.steps| - index
  {
    if index < |job.artifact.steps| {
      RoundFresh(job, run, version, index, first);
      match DriveOnce(job, run, version, index, first) {
        case Over(_) =>
        case Next(run', version', index') => DriveFresh(job, run', version', index', first);
      }
    }
  }

  lemma ResumeFresh<W>(job: Job<W>, k: Continuation<W>, checked: Out<W, Option<Id>>, version: nat)
    requires k.index < |job.artifact.steps| && !checked.run.stale
    requires checked.reply.Value? ==> AllFrom(checked.run.outputs, checked.run.epoch)
    ensures
      var end := Resume(job, k, checked, version);
      && !RunOf(end).stale && RunOf(end).epoch == checked.run.epoch
      && (end.Ended? && end.result.Success? ==> AllFrom(end.result.outputs, RunOf(end).epoch))
  {
    if checked.reply.Value? {
      DriveFresh(job, checked.run.(lease := Lease(version, true)), version,
                 StartAt(k), (k.index, k.retryAttempt));
    }
  }

  lemma FirstSegmentFresh<W>(job: Job<W>, world: W)
    ensures FreshEnd(Execute(job, world), 0)
  {
    var ready := AllEvaluate(job, job.artifact.preconditions, Begin(world));
    if ready.reply == Value(true) {
      DriveFresh(job, ready.run, 1, 0, (0, 1));
    }
  }

  /**
  In a whole run no condition is ever judged while the program holds an output read before the last
  period of human control, and a success returns only outputs read after it.
  */
  lemma {:induction false} NoStaleValueCrossesAHandoff<W>(job: Job<W>, world: W, backs: seq<Handback<W>>)
    ensures
      var end := Life(job, world, backs);
      && !RunOf(end).stale
      && RunOf(end).epoch <= |backs|
      && (end.PausedAt? && end.kept.index < |job.artifact.steps| ==> RunOf(end).epoch == |backs|)
      && (end.Ended? && end.result.Success? ==> AllFrom(end.result.outputs, RunOf(end).epoch))
  {
    if backs == [] {
      FirstSegmentFresh(job, world);
    } else {
      NoStaleValueCrossesAHandoff(job, world, backs[..|backs| - 1]);
      var before := Life(job, world, backs[..|backs| - 1]);
      if before.PausedAt? && before.kept.index < |job.artifact.steps| {
        var k, back := before.kept, backs[|backs| - 1];
        ResumeFresh(job, k, ValidateResume(job, k, Returned(k, back)), back.version);
      }
    }
  }

  // ---------------------------------------------------------------- every run ends, within a bound

  lemma SettleEntries<W>(job: Job<W>, step: Step, run: Run<W>, main: Out<W, MainEnd>, version: nat, index: nat,
                         attempt: nat)
    requires index < |job.artifact.steps| && MainEnding(job, step, run, main, version, attempt)
    ensures
      match Settle(job, main, version, index)
      case Over(end) => RunOf(end).entries == run.entries + 1
      case Next(run', _, _) => run'.entries == run.entries + 1
  {
  }

  lemma RoundEntries<W>(job: Job<W>, run: Run<W>, version: nat, index: nat, first: (nat, nat))
    requires index < |job.artifact.steps|
    ensures
      match DriveOnce(job, run, version, index, first)
      case Over(end) => RunOf(end).entries == run.entries + 1
      case Next(run', _, _) => run'.entries == run.entries + 1
  {
    var step, attempt := job.artifact.steps[index], AttemptAt(index, first);
    SettleEntries(job, step, run, ExecuteMain(job, step, run, version, attempt), version, index, attempt);
  }

  /** Entries still possible: the rest of this pass, and a whole pass for each recovery start left. */
  function Remaining(n: nat, index: nat, budget: nat): nat
    requires index <= n
  {
    if budget == 0 then n - index else n + Remaining(n, index, budget - 1)
  }

  lemma {:induction false} RemainingIs(n: nat, index: nat, budget: nat)
    requires index <= n
    ensures Remaining(n, index, budget) == n - index + budget * n
  {
    if budget > 0 {
      RemainingIs(n, index, budget - 1);
      assert budget * n == (budget - 1) * n + n;
    }
  }

  lemma RoundSpends(n: nat, index: nat, budget: nat, index': nat, budget': nat)
    requires index < n && index' <= n && ((budget' == budget && index' == index + 1) || budget' < budget)
    ensures 1 + Remaining(n, index', budget') <= Remaining(n, index, budget)
  {
    RemainingIs(n, index, budget);
    RemainingIs(n, index', budget');
    if budget' < budget {
      var d := budget - budget' - 1;
      assert budget * n == (budget' + 1 + d) * n == budget' * n + n + d * n;
      assert d * n >= 0;
    }
  }

  lemma SomeRemain(n: nat, index: nat, budget: nat)
    requires index < n
    ensures Remaining(n, index, budget) >= 1
  {
    RemainingIs(n, index, budget);
    assert budget * n >= 0;
  }

  lemma {:induction false} DriveEntries<W>(job: Job<W>, run: Run<W>, version: nat, index: nat, first: (nat, nat))
    requires index <= |job.artifact.steps|
    ensures
      RunOf(Drive(job, run, version, index, first)).entries
        <= run.entries + Remaining(|job.artifact.steps|, index, Budget(job.artifact.recoveries, run.uses))
    decreases Budget(job.artifact.recoveries, run.uses), |job.artifact.steps| - index
  {
    if index < |job.artifact.steps| {
      RoundEntries(job, run, version, index, first);
      match DriveOnce(job, run, version, index, first) {
        case Over(_) => SomeRemain(|job.artifact.steps|, index, Budget(job.artifact.recoveries, run.uses));
        case Next(run', version', index') =>
          DriveEntries(job, run', version', index', first);
          RoundSpends(|job.artifact.steps|, index, Budget(job.artifact.recoveries, run.uses),
                      index', Budget(job.artifact.recoveries, run'.uses));
      }
    }
  }

  function TotalUses(recoveries: seq<Recovery>): nat {
    if recoveries == [] then 0 else TotalUses(recoveries[..|recoveries| - 1]) + recoveries[|recoveries| - 1].maxUses
  }

  lemma {:induction false} FullBudget(recoveries: seq<Recovery>)
    ensures Budget(recoveries, map[]) == TotalUses(recoveries)
  {
    if recoveries != [] {
      FullBudget(recoveries[..|recoveries| - 1]);
    }
  }

  /**
  An uninterrupted run enters its main steps at most n * (1 + the sum of the recoveries' uses) times,
  whatever the surface answers.
  */
  lemma EntriesAreBounded<W>(job: Job<W>, world: W)
    ensures RunOf(Execute(job, world)).entries <= |job.artifact.steps| * (1 + TotalUses(job.artifact.recoveries))
  {
    var n, total := |job.artifact.steps|, TotalUses(job.artifact.recoveries);
    FullBudget(job.artifact.recoveries);
    RemainingIs(n, 0, total);
    assert Remaining(n, 0, total) == n * (1 + total);
    EntriesRemain(job, world);
  }

  lemma EntriesRemain<W>(job: Job<W>, world: W)
    ensures RunOf(Execute(job, world)).entries
         <= Remaining(|job.artifact.steps|, 0, Budget(job.artifact.recoveries, map[]))
  {
    var ready := AllEvaluate(job, job.artifact.preconditions, Begin(world));
    if ready.reply == Value(true) {
      DriveEntries(job, ready.run, 1, 0, (0, 1));
    }
  }

  ghost predicate UsesWithin(a: Artifact, uses: map<Id, nat>, starts: seq<Id>) {
    && (forall id :: Uses(uses, id) == multiset(starts)[id])
    && (forall r <- a.recoveries :: Uses(uses, r.id) <= r.maxUses)
  }

  lemma SameRecovery(recoveries: seq<Recovery>, a: Recovery, b: Recovery)
    requires Unique(RecoveryIds(recoveries)) && a in recoveries && b in recoveries && a.id == b.id
    ensures a == b
  {
    var i :| 0 <= i < |recoveries| && recoveries[i] == a;
    var j :| 0 <= j < |recoveries| && recoveries[j] == b;
    assert RecoveryIds(recoveries)[i] == RecoveryIds(recoveries)[j];
  }

  lemma SpentUses<W>(job: Job<W>, step: Step, a: Run<W>, b: Run<W>, r: Recovery)
    requires Unique(RecoveryIds(job.artifact.recoveries))
    requires UsesWithin(job.artifact, a.uses, a.starts) && Spent(job, step, a, b, r)
    ensures UsesWithin(job.artifact, b.uses, b.starts)
  {
    forall other <- job.artifact.recoveries ensures Uses(b.uses, other.id) <= other.maxUses {
      if other.id == r.id {
        SameRecovery(job.artifact.recoveries, other, r);
      }
    }
  }

  lemma MainUses<W>(job: Job<W>, step: Step, a: Run<W>, b: Run<W>)
    requires Unique(RecoveryIds(job.artifact.recoveries))
    requires UsesWithin(job.artifact, a.uses, a.starts) && Mained(job, step, a, b)
    ensures UsesWithin(job.artifact, b.uses, b.starts)
  {
    if !(b.uses == a.uses && b.starts == a.starts) {
      var r :| Spent(job, step, a, b, r);
      SpentUses(job, step, a, b, r);
    }
  }

  lemma SettleUses<W>(job: Job<W>, main: Out<W, MainEnd>, version: nat, index: nat)
    requires index < |job.artifact.steps|
    ensures
      match Settle(job, main, version, index)
      case Over(end) => RunOf(end).uses == main.run.uses && RunOf(end).starts == main.run.starts
      case Next(run', _, _) => run'.uses == main.run.uses && run'.starts == main.run.starts
  {
  }

  lemma {:induction false} DriveUses<W>(job: Job<W>, run: Run<W>, version: nat, index: nat, first: (nat, nat))
    requires Unique(RecoveryIds(job.artifact.recoveries)) && index <= |job.artifact.steps|
    requires UsesWithin(job.artifact, run.uses, run.starts)
    ensures
      var b := RunOf(Drive(job, run, version, index, first));
      UsesWithin(job.artifact, b.uses, b.starts)
    decreases Budget(job.artifact.recoveries, run.uses), |job.artifact.steps| - index
  {
    if index < |job.artifact.steps| {
      var step, attempt := job.artifact.steps[index], AttemptAt(index, first);
      var main := ExecuteMain(job, step, run, version, attempt);
      MainUses(job, step, run, main.run);
      SettleUses(job, main, version, index);
      match DriveOnce(job, run, version, index, first) {
        case Over(_) =>
        case Next(run', version', index') => DriveUses(job, run', version', index', first);
      }
    }
  }

  lemma ResumeUses<W>(job: Job<W>, k: Continuation<W>, checked: Out<W, Option<Id>>, version: nat)
    requires Unique(RecoveryIds(job.artifact.recoveries)) && k.index < |job.artifact.steps|
    requires UsesWithin(job.artifact, checked.run.uses, checked.run.starts)
    ensures
      var b := RunOf(Resume(job, k, checked, version));
      UsesWithin(job.artifact, b.uses, b.starts)
  {
    if checked.reply.Value? {
      DriveUses(job, checked.run.(lease := Lease(version, true)), version, StartAt(k), (k.index, k.retryAttempt));
    }
  }

  lemma FirstSegmentUses<W>(job: Job<W>, world: W)
    requires Unique(RecoveryIds(job.artifact.recoveries))
    ensures UsesWithin(job.artifact, RunOf(Execute(job, world)).uses, RunOf(Execute(job, world)).starts)
  {
    var ready := AllEvaluate(job, job.artifact.preconditions, Begin(world));
    if ready.reply == Value(true) {
      DriveUses(job, ready.run, 1, 0, (0, 1));
    }
  }

  /** Over a whole run, resumed segments included, each recovery starts at most its declared number of times. */
  lemma {:induction false} RecoveriesAreBounded<W>(job: Job<W>, world: W, backs: seq<Handback<W>>)
    requires Unique(RecoveryIds(job.artifact.recoveries))
    ensures
      var b := RunOf(Life(job, world, backs));
      && UsesWithin(job.artifact, b.uses, b.starts)
      && (forall r <- job.artifact.recoveries :: multiset(b.starts)[r.id] <= r.maxUses)
  {
    if backs == [] {
      FirstSegmentUses(job, world);
    } else {
      RecoveriesAreBounded(job, world, backs[..|backs| - 1]);
      var before := Life(job, world, backs[..|backs| - 1]);
      if before.PausedAt? && before.kept.index < |job.artifact.steps| {
        var k, back := before.kept, backs[|backs| - 1];
        ResumeUses(job, k, ValidateResume(job, k, Returned(k, back)), back.version);
      }
    }
    var b := RunOf(Life(job, world, backs));
    forall r <- job.artifact.recoveries ensures multiset(b.starts)[r.id] <= r.maxUses {
      assert Uses(b.uses, r.id) == multiset(b.starts)[r.id];
    }
  }

  // ---------------------------------------------------------------- no effect happens twice

  /** The identifiers of main steps differ from each other and from those of recovery steps. */
  ghost predicate Apart(a: Artifact) {
    && (forall i :: 0 <= i < |a.steps| ==> a.steps[i].id !in StepIds(RecoverySteps(a.recoveries)))
    && (forall i, j :: 0 <= i < j < |a.steps| ==> a.steps[i].id != a.steps[j].id)
  }

  lemma ValidatedIsApart(a: Artifact)
    requires Validated(a)
    ensures Apart(a)
  {
    var all, n := a.steps + RecoverySteps(a.recoveries), |a.steps|;
    assert Unique(StepIds(all));
    forall i, j | 0 <= i < j < n
      ensures a.steps[i].id != a.steps[j].id
    {
      assert StepIds(all)[i] == a.steps[i].id && StepIds(all)[j] == a.steps[j].id;
    }
    forall i, k | 0 <= i < n && 0 <= k < |RecoverySteps(a.recoveries)|
      ensures a.steps[i].id != RecoverySteps(a.recoveries)[k].id
    {
      assert StepIds(all)[i] == a.steps[i].id && StepIds(all)[n + k] == RecoverySteps(a.recoveries)[k].id;
    }
  }

  ghost predicate AtMostOnce(a: Artifact, effects: seq<Id>) {
    forall i :: 0 <= i < |a.steps| ==> multiset(effects)[a.steps[i].id] <= 1
  }

  /** Nothing brings the run back to step `i` once it has acted. */
  predicate Unrevisited(a: Artifact, i: nat)
    requires i < |a.steps|
  {
    a.steps[i].body.action.Operate? ==> Past(a, i)
  }

  /**
  Step `i` took effect at most once, and not at all if it does not operate the surface or the run is not past
  it yet. An attempt of it that had an effect may have been repeated only if its own policy allows that.
  */
  ghost predicate Clean<W>(a: Artifact, i: nat, run: Run<W>, index: nat)
    requires i < |a.steps|
  {
    if a.steps[i].id in run.lied then Repeatable(a.steps[i])
    else multiset(run.effects)[a.steps[i].id] <= if i < index && a.steps[i].body.action.Operate? then 1 else 0
  }

  lemma MainOnce<W>(job: Job<W>, i: nat, run: Run<W>, b: Run<W>, index: nat)
    requires Apart(job.artifact) && index < |job.artifact.steps| && i < |job.artifact.steps|
    requires Clean(job.artifact, i, run, index) && Mained(job, job.artifact.steps[index], run, b)
    ensures Clean(job.artifact, i, b, index + 1)
    ensures job.artifact.steps[index].id in b.lied || multiset(b.effects) == multiset(run.effects) ==>
              Clean(job.artifact, i, b, index)
  {
    assert job.artifact.steps[i].id !in StepIds(RecoverySteps(job.artifact.recoveries));
    assert i != index ==> job.artifact.steps[i].id != job.artifact.steps[index].id;
  }

  ghost predicate OnceEnd<W>(job: Job<W>, i: nat, end: RunEnd<W>)
    requires i < |job.artifact.steps|
  {
    && Clean(job.artifact, i, RunOf(end), |job.artifact.steps|)
    && (end.PausedAt? ==> Clean(job.artifact, i, end.kept.run, StartAt(end.kept)))
  }

  lemma CleanLater<W>(a: Artifact, i: nat, run: Run<W>, later: Run<W>, index: nat, next: nat)
    requires i < |a.steps| && Clean(a, i, run, index) && later.effects == run.effects && later.lied == run.lied
    requires a.steps[i].body.action.Operate? && i < index ==> i < next
    ensures Clean(a, i, later, next)
  {
  }

  lemma LeaveOnce<W>(job: Job<W>, i: nat, run: Run<W>, main: Out<W, MainEnd>, version: nat, index: nat, attempt: nat)
    requires Apart(job.artifact) && index < |job.artifact.steps| && i < |job.artifact.steps|
    requires MainEnding(job, job.artifact.steps[index], run, main, version, attempt)
    requires Clean(job.artifact, i, run, index)
    requires main.reply.Value? && main.reply.value.Leave?
    ensures OnceEnd(job, i, Settle(job, main, version, index).end)
  {
    MainOnce(job, i, run, main.run, index);
    var result, n := main.reply.value.result, |job.artifact.steps|;
    CleanLater(job.artifact, i, main.run, main.run, index + 1, n);
    if result.Intervention? {
      var end := Retain(job, result, main.run, index);
      CleanLater(job.artifact, i, main.run, RunOf(end), index + 1, n);
      if end.PausedAt? {
        CleanLater(job.artifact, i, main.run, end.kept.run, StartAt(end.kept), StartAt(end.kept));
      }
    }
  }

  /** Going on or leaving changes neither what took effect nor what was repeated or marked. */
  lemma SettleRemembers<W>(job: Job<W>, main: Out<W, MainEnd>, version: nat, index: nat)
    requires index < |job.artifact.steps|
    ensures
      var round := Settle(job, main, version, index);
      var run := if round.Over? then RunOf(round.end) else round.run;
      run.effects == main.run.effects && run.lied == main.run.lied && run.marked == main.run.marked
  {
  }

  /** A jump from step `i` or a later one lands behind step `i`. */
  lemma JumpsPast<W>(job: Job<W>, i: nat, run: Run<W>, b: Run<W>, index: nat, to: Id)
    requires Past(job.artifact, i) && i <= index < |job.artifact.steps|
    requires exists r :: Spent(job, job.artifact.steps[index], run, b, r) && r.resumeAt == to
    ensures IndexOf(job.artifact.steps, to).Some? ==> i < IndexOf(job.artifact.steps, to).value
  {
    var a := job.artifact;
    var r :| Spent(job, a.steps[index], run, b, r) && r.resumeAt == to;
    var k :| 0 <= k < |a.recoveries| && a.recoveries[k] == r;
    var target := IndexOf(a.steps, to);
    if target.Some? {
      assert a.recoveries[k].id in a.steps[index].recoveryRefs && a.recoveries[k].resumeAt == a.steps[target.value].id;
    }
  }

  lemma NextIndex<W>(job: Job<W>, i: nat, run: Run<W>, main: Out<W, MainEnd>, version: nat, index: nat, attempt: nat)
    requires index < |job.artifact.steps| && i < |job.artifact.steps| && Unrevisited(job.artifact, i)
    requires MainEnding(job, job.artifact.steps[index], run, main, version, attempt)
    ensures
      match Settle(job, main, version, index)
      case Over(end) => !(main.reply.Value? && main.reply.value.Leave?) ==> !end.PausedAt?
      case Next(_, _, index') => job.artifact.steps[i].body.action.Operate? && i <= index ==> i < index'
  {
    if main.reply.Value? && main.reply.value.Jump? && job.artifact.steps[i].body.action.Operate? && i <= index {
      JumpsPast(job, i, run, main.run, index, main.reply.value.to);
    }
  }

  lemma NextOnce<W>(job: Job<W>, i: nat, run: Run<W>, main: Out<W, MainEnd>, version: nat, index: nat, attempt: nat)
    requires Apart(job.artifact) && index < |job.artifact.steps|
    requires i < |job.artifact.steps| && Unrevisited(job.artifact, i)
    requires MainEnding(job, job.artifact.steps[index], run, main, version, attempt)
    requires Clean(job.artifact, i, run, index) && !(main.reply.Value? && main.reply.value.Leave?)
    ensures
      match Settle(job, main, version, index)
      case Over(end) => OnceEnd(job, i, end)
      case Next(run', _, index') => Clean(job.artifact, i, run', index')
  {
    MainOnce(job, i, run, main.run, index);
    NextIndex(job, i, run, main, version, index, attempt);
    SettleRemembers(job, main, version, index);
    match Settle(job, main, version, index) {
      case Over(end) => CleanLater(job.artifact, i, main.run, RunOf(end), index + 1, |job.artifact.steps|);
      case Next(run', _, index') => CleanLater(job.artifact, i, main.run, run', index + 1, index');
    }
  }

  lemma SettleOnce<W>(job: Job<W>, i: nat, run: Run<W>, main: Out<W, MainEnd>, version: nat, index: nat, attempt: nat)
    requires Apart(job.artifact) && index < |job.artifact.steps|
    requires i < |job.artifact.steps| && Unrevisited(job.artifact, i)
    requires MainEnding(job, job.artifact.steps[index], run, main, version, attempt)
    requires Clean(job.artifact, i, run, index)
    ensures
      match Settle(job, main, version, index)
      case Over(end) => OnceEnd(job, i, end)
      case Next(run', _, index') => Clean(job.artifact, i, run', index')
  {
    if main.reply.Value? && main.reply.value.Leave? {
      LeaveOnce(job, i, run, main, version, index, attempt);
    } else {
      NextOnce(job, i, run, main, version, index, attempt);
    }
  }

  lemma {:induction false} DriveOnceOnly<W>(job: Job<W>, i: nat, run: Run<W>, version: nat, index: nat,
                                            first: (nat, nat))
    requires Apart(job.artifact) && index <= |job.artifact.steps|
    requires i < |job.artifact.steps| && Unrevisited(job.artifact, i) && Clean(job.artifact, i, run, index)
    ensures OnceEnd(job, i, Drive(job, run, version, index, first))
    decreases Budget(job.artifact.recoveries, run.uses), |job.artifact.steps| - index
  {
    if index < |job.artifact.steps| {
      var step, attempt := job.artifact.steps[index], AttemptAt(index, first);
      SettleOnce(job, i, run, ExecuteMain(job, step, run, version, attempt), version, index, attempt);
      match DriveOnce(job, run, version, index, first) {
        case Over(_) =>
        case Next(run', version', index') => DriveOnceOnly(job, i, run', version', index', first);
      }
    }
  }

  lemma ResumeOnce<W>(job: Job<W>, i: nat, k: Continuation<W>, checked: Out<W, Option<Id>>, version: nat)
    requires Apart(job.artifact) && i < |job.artifact.steps| && Unrevisited(job.artifact, i)
    requires k.index < |job.artifact.steps| && checked.run.effects == k.run.effects && checked.run.lied == k.run.lied
    requires OnceEnd(job, i, PausedAt(k))
    ensures OnceEnd(job, i, Resume(job, k, checked, version))
  {
    if checked.reply.Value? {
      DriveOnceOnly(job, i, checked.run.(lease := Lease(version, true)), version, StartAt(k),
                    (k.index, k.retryAttempt));
    }
  }

  lemma FirstSegmentOnce<W>(job: Job<W>, i: nat, world: W)
    requires Apart(job.artifact) && i < |job.artifact.steps| && Unrevisited(job.artifact, i)
    ensures OnceEnd(job, i, Execute(job, world))
  {
    var ready := AllEvaluate(job, job.artifact.preconditions, Begin(world));
    if ready.reply == Value(true) {
      DriveOnceOnly(job, i, ready.run, 1, 0, (0, 1));
    }
  }

  /**
  In a whole run of a validated artifact, through retries, recoveries and any number of handoffs, a main step
  that no recovery leads back to takes effect at most once, unless an attempt of that very step that had an
  effect was repeated; and then its own policy allows a retry.
  */
  lemma {:induction false} EffectsHappenAtMostOnce<W>(job: Job<W>, i: nat, world: W, backs: seq<Handback<W>>)
    requires Validated(job.artifact) && i < |job.artifact.steps| && Unrevisited(job.artifact, i)
    ensures OnceEnd(job, i, Life(job, world, backs))
  {
    ValidatedIsApart(job.artifact);
    if backs == [] {
      FirstSegmentOnce(job, i, world);
    } else {
      EffectsHappenAtMostOnce(job, i, world, backs[..|backs| - 1]);
      var before := Life(job, world, backs[..|backs| - 1]);
      if before.PausedAt? && before.kept.index < |job.artifact.steps| {
        var k, back := before.kept, backs[|backs| - 1];
        ResumeOnce(job, i, k, ValidateResume(job, k, Returned(k, back)), back.version);
      }
    }
  }
}
