/** Two valid artifacts that pay twice: on a surface that denies an effect, and on one that raises no error at all. */
module ReplaySample {
  import opened Prelude
  import opened Capability
  import opened Replay
  import opened ReplayProofs

  // ---------------------------------------------------------------- a denied effect is retried

  const PAY := Step("pay", StepBody(Operate(Click, "pay"), Some(Locator("Pay", "button")), [], [Text("Paid")],
                                    RetryPolicy(2, ["frame_budget"]), Reversible), [], [], [])

  const PAYMENT := Artifact("demo.pay", "1.0.0", "demo", Reversible, "home", ["standard"], "", "", [], [], [PAY], [],
                            [], [],
                            Text("Paid"), {"click"}, {}, Reversible, None)

  /** Counts clicks; while waiting after the first one it fails with an error that denies the click's effect. */
  function Denying(): Surface<nat> {
    Surface(
      w => (Says(Observation("f", true)), w),
      (w, _) => (Says("handle"), w),
      (w, _, _) => (Says(true), w),
      (w, _, _) => (if w == 1 then Fails(SurfaceError("frame_budget", true, true, false)) else Says(true), w),
      (w, _, _) => (Says(""), w),
      (w, _, _) => Execution(Says(Completed), true, w + 1),
      w => (Says(()), w),
      (_, _, _, _) => Says(Allow),
      _ => false,
      _ => true,
      _ => [])
  }

  const DENIED := Job(PAYMENT, "standard", true, true, Denying(), Idle())

  /** A click on the control found for the step, before anything was read. */
  function Struck(step: Step, run: Run<nat>): Deed<nat> {
    Deed(step.id, step.body, Some("handle"), map[], run.lease, run.world)
  }

  lemma FirstTry(run: Run<nat>)
    requires run.world == 0 && run.lease == Lease(1, true) && run.outputs == map[]
    ensures
      var tried := Try(DENIED, PAY, run, 1, 1, true, true);
      && tried.out.reply == Raised(SurfaceError("frame_budget", true, true, false))
      && tried.out.run == run.(world := 1, dispatched := run.dispatched + [Struck(PAY, run)],
                               effects := run.effects + ["pay"])
  {
    var prepared := Prepare(DENIED, PAY, run, 1, true);
    assert prepared == Out(Value(Go(Some("handle"))), run);
    var performed := Perform(DENIED, PAY, Some("handle"), run);
    assert performed == Out(Value(()),
                            run.(world := 1, dispatched := run.dispatched + [Struck(PAY, run)],
                                 effects := run.effects + ["pay"]));
    assert IdentityVerified(DENIED, PAY.body.postconditions, performed.run) == Out(Value(true), performed.run);
    assert EarlyBranch(DENIED, PAY, performed.run, true) == Out(Value(Done), performed.run);
  }

  lemma SecondTry(run: Run<nat>)
    requires run.world == 1 && run.lease == Lease(1, true) && run.outputs == map[]
    ensures
      var tried := Try(DENIED, PAY, run, 1, 2, true, true);
      && tried.out == Out(Value(Done),
                          run.(world := 2, dispatched := run.dispatched + [Struck(PAY, run)],
                               effects := run.effects + ["pay"]))
  {
    var prepared := Prepare(DENIED, PAY, run, 1, true);
    assert prepared == Out(Value(Go(Some("handle"))), run);
    var performed := Perform(DENIED, PAY, Some("handle"), run);
    assert performed == Out(Value(()),
                            run.(world := 2, dispatched := run.dispatched + [Struck(PAY, run)],
                                 effects := run.effects + ["pay"]));
    assert IdentityVerified(DENIED, PAY.body.postconditions, performed.run) == Out(Value(true), performed.run);
    assert EarlyBranch(DENIED, PAY, performed.run, true) == Out(Value(Done), performed.run);
    assert Detect(DENIED, Outcomes, PAY.outcomeRefs, Detectors(DENIED.artifact.outcomes), performed.run)
           == Out(Value(None), performed.run);
    assert PAY.body.postconditions[1..] == [];
  }

  /** The run after `n` clicks, each with its effect. */
  function Clicked(run: Run<nat>, n: nat): Run<nat> {
    if n == 0 then run else
    var before := Clicked(run, n - 1);
    before.(world := n, dispatched := before.dispatched + [Struck(PAY, before)], effects := before.effects + ["pay"])
  }

  lemma RepeatedOnce<W>(job: Job<W>, step: Step, run: Run<W>, version: nat, error: SurfaceError, again: Run<W>,
                        last: Run<W>)
    requires
      var tried := Try(job, step, run, version, 1, true, true);
      tried.out.reply == Raised(error) && again == Repeating(step, run, tried.out.run)
    requires Retryable(step, error, 1) && Try(job, step, again, version, 2, true, true).out == Out(Value(Done), last)
    ensures ExecuteStep(job, step, run, version, 1, true, true) == Out(Value(Done), last)
  {
    StepAfterTry(job, step, run, version, 1, true, true);
    StepAfterTry(job, step, again, version, 2, true, true);
  }

  lemma BothTries(run: Run<nat>)
    requires run.world == 0 && run.lease == Lease(1, true) && run.outputs == map[]
    ensures ExecuteStep(DENIED, PAY, run, 1, 1, true, true)
            == Out(Value(Done), Clicked(run, 2).(lied := run.lied + {"pay"}))
  {
    FirstTry(run);
    assert Clicked(run, 1) == run.(world := 1, dispatched := run.dispatched + [Struck(PAY, run)],
                                   effects := run.effects + ["pay"]);
    var again := Clicked(run, 1).(lied := run.lied + {"pay"});
    assert again == Repeating(PAY, run, Clicked(run, 1));
    SecondTry(again);
    assert "frame_budget" in PAY.body.retry.retryOn;
    RepeatedOnce(DENIED, PAY, run, 1, SurfaceError("frame_budget", true, true, false), again,
                 Clicked(run, 2).(lied := run.lied + {"pay"}));
  }

  /** A run over a single main step that ends well. */
  lemma OneStepRun<W>(job: Job<W>, world: W, last: Run<W>)
    requires job.inputsValid && job.tenant in job.artifact.variants && job.artifact.preconditions == []
             && |job.artifact.steps| == 1
    requires ExecuteStep(job, job.artifact.steps[0], Begin(world).(entries := 1), 1, 1, true, true)
             == Out(Value(Done), last)
    requires last.lease == Lease(1, true) && !job.surface.leaseExpired(last.world)
    ensures Execute(job, world) == Complete(job, last.(lease := Lease(2, true)))
  {
    DoneAdvances(job, Begin(world), 1, 0, (0, 1), last);
    DriveGoesOn(job, Begin(world), 1, 0, (0, 1));
  }

  lemma PaymentIsValid()
    ensures Validated(PAYMENT) && ForwardOnly(PAYMENT)
  {
    assert RecoverySteps(PAYMENT.recoveries) == [];
  }

  function ClickAt(step: Step, version: nat, world: nat): Deed<nat> {
    Deed(step.id, step.body, Some("handle"), map[], Lease(version, true), world)
  }

  /** The state of that run when its loop ends. */
  function Paid(): Run<nat> {
    Run(2, Lease(2, true), map[], map[], 0, false, false, {"pay"}, ["pay", "pay"],
        [ClickAt(PAY, 1, 0), ClickAt(PAY, 1, 1)], [], 1, [])
  }

  lemma PaidIsClicked()
    ensures Clicked(Begin(0).(entries := 1), 2).(lied := {"pay"}) == Paid().(lease := Lease(1, true))
  {
  }

  lemma PaidSucceeds()
    ensures
      var end := Complete(DENIED, Paid());
      end.Ended? && end.result.Success? && end.final.effects == Paid().effects
  {
  }

  lemma PayingTwice()
    ensures Execute(DENIED, 0) == Complete(DENIED, Paid())
  {
    var run, last := Begin(0).(entries := 1), Paid().(lease := Lease(1, true));
    BothTries(run);
    PaidIsClicked();
    assert run.lied + {"pay"} == {"pay"};
    OneStepRun(DENIED, 0, last);
  }

  lemma TwiceIsTooOften(a: Artifact, effects: seq<Id>)
    requires |a.steps| > 0 && a.steps[0].id == "pay" && multiset(effects)["pay"] == 2
    ensures !AtMostOnce(a, effects)
  {
    assert multiset(effects)[a.steps[0].id] == 2;
  }

  /**
  Without the assumption the guarantee fails: a wait that follows the action and denies its effect
  makes the step run again, and the action takes effect twice.
  */
  lemma DenyingSurfaceRepeatsTheEffect()
    ensures Validated(PAYMENT) && ForwardOnly(PAYMENT)
    ensures
      var end := Execute(DENIED, 0);
      && end.Ended? && end.result.Success?
      && end.final.effects == ["pay", "pay"] && !AtMostOnce(PAYMENT, end.final.effects)
  {
    PaymentIsValid();
    PayingTwice();
    PaidSucceeds();
    TwiceIsTooOften(PAYMENT, ["pay", "pay"]);
  }

  // ---------------------------------------------------------------- a recovery leads back

  const NOTHING_RETRIED := RetryPolicy(1, [])

  const PAY_ONCE := Step("pay", StepBody(Operate(Click, "pay"), Some(Locator("Pay", "button")), [], [Text("Paid")],
                                         NOTHING_RETRIED, Reversible), ["again"], [], [])

  const DISMISS := Step("dismiss", StepBody(Operate(Click, "close"), Some(Locator("Close", "button")), [], [],
                                            NOTHING_RETRIED, Reversible), [], [], [])

  /** Once the notice is dismissed the run resumes at the step after which it appeared, not behind it. */
  const AGAIN := Recovery("again", Text("Notice"), 1, [DISMISS], "pay")

  const ORDER := Artifact("demo.order", "1.0.0", "demo", Reversible, "home", ["standard"], "", "", [], [],
                          [PAY_ONCE], [AGAIN], [], [], Text("Paid"), {"click"}, {}, Reversible, None)

  /** Counts clicks and shows a notice after the first; nothing ever fails. */
  function Noticing(): Surface<nat> {
    Surface(
      w => (Says(Observation("f", true)), w),
      (w, _) => (Says("handle"), w),
      (w, _, _) => (Says(w == 1), w),
      (w, _, _) => (Says(true), w),
      (w, _, _) => (Says(""), w),
      (w, _, _) => Execution(Says(Completed), true, w + 1),
      w => (Says(()), w),
      (_, _, _, _) => Says(Allow),
      _ => false,
      _ => true,
      _ => [])
  }

  const ORDERED := Job(ORDER, "standard", true, true, Noticing(), Idle())

  function Acted(run: Run<nat>, step: Step): Run<nat> {
    run.(world := run.world + 1, dispatched := run.dispatched + [Struck(step, run)], effects := run.effects + [step.id])
  }

  /** A click goes through: what follows is the check of the step. */
  lemma ClickGoesThrough(step: Step, run: Run<nat>, version: nat, recover: bool, allow: bool)
    requires step.body.action.Operate? && step.body.target.Some? && step.body.preconditions == []
    requires run.lease == Lease(version, true) && run.outputs == map[]
    ensures Try(ORDERED, step, run, version, 1, recover, allow).out
            == Verify(ORDERED, step, Acted(run, step), version, 1, recover, allow)
  {
    var prepared := Prepare(ORDERED, step, run, version, allow);
    assert prepared == Out(Value(Go(Some("handle"))), run);
    assert Perform(ORDERED, step, Some("handle"), run) == Out(Value(()), Acted(run, step));
  }

  lemma OneTrigger()
    ensures Triggers(ORDER.recoveries) == map["again" := Text("Notice")]
    ensures FindRecovery(ORDER.recoveries, "again") == Some(AGAIN)
  {
    assert ORDER.recoveries[..0] == [];
    assert Triggers([]) == map[];
  }

  lemma NoticeShows(run: Run<nat>, version: nat)
    requires run.world == 1 && run.outputs == map[] && run.uses == map[]
    ensures Verify(ORDERED, PAY_ONCE, run, version, 1, true, true) == Out(Value(Recover("again")), run)
  {
    var triggers := Triggers(ORDER.recoveries);
    OneTrigger();
    assert IdentityVerified(ORDERED, PAY_ONCE.body.postconditions, run) == Out(Value(true), run);
    assert PAY_ONCE.recoveryRefs[1..] == [];
    assert Matching(ORDERED, Recoveries, [], triggers, run) == Out(Value([]), run);
    assert Matching(ORDERED, Recoveries, PAY_ONCE.recoveryRefs, triggers, run) == Out(Value(["again"] + []), run);
    assert SelectRecovery(ORDERED, PAY_ONCE, run) == Out(Value(Some(Recover("again"))), run);
    assert EarlyBranch(ORDERED, PAY_ONCE, run, true) == Out(Value(Recover("again")), run);
  }

  lemma NoticeIsGone(run: Run<nat>, version: nat)
    requires run.world == 3 && run.outputs == map[]
    ensures Verify(ORDERED, PAY_ONCE, run, version, 1, true, true) == Out(Value(Done), run)
  {
    var triggers := Triggers(ORDER.recoveries);
    OneTrigger();
    assert IdentityVerified(ORDERED, PAY_ONCE.body.postconditions, run) == Out(Value(true), run);
    assert PAY_ONCE.recoveryRefs[1..] == [];
    assert Matching(ORDERED, Recoveries, [], triggers, run) == Out(Value([]), run);
    assert Matching(ORDERED, Recoveries, PAY_ONCE.recoveryRefs, triggers, run) == Out(Value([]), run);
    assert EarlyBranch(ORDERED, PAY_ONCE, run, true) == Out(Value(Done), run);
    assert PAY_ONCE.body.postconditions[1..] == [];
  }

  lemma EndsAtOnce<W>(job: Job<W>, step: Step, run: Run<W>, version: nat, recover: bool, allow: bool,
                      out: Out<W, StepEnd>)
    requires Try(job, step, run, version, 1, recover, allow).out == out && !out.reply.Raised?
    ensures ExecuteStep(job, step, run, version, 1, recover, allow) == out
  {
    StepAfterTry(job, step, run, version, 1, recover, allow);
  }

  lemma Dismissed(run: Run<nat>, version: nat)
    requires run.world == 1 && run.lease == Lease(version, true) && run.outputs == map[]
    ensures ExecuteStep(ORDERED, DISMISS, run, version, 1, false, false) == Out(Value(Done), Acted(run, DISMISS))
  {
    ClickGoesThrough(DISMISS, run, version, false, false);
    var acted := Acted(run, DISMISS);
    assert IdentityVerified(ORDERED, DISMISS.body.postconditions, acted) == Out(Value(true), acted);
    assert EarlyBranch(ORDERED, DISMISS, acted, false) == Out(Value(Done), acted);
    EndsAtOnce(ORDERED, DISMISS, run, version, false, false, Out(Value(Done), acted));
  }

  /** A recovery of one step that ends well. */
  lemma OneStepRecovery<W>(job: Job<W>, r: Recovery, run: Run<W>, version: nat, m: Run<W>)
    requires |r.steps| == 1 && run.lease == Lease(version, true) && !job.surface.leaseExpired(run.world)
    requires ExecuteStep(job, r.steps[0], Started(run, r).(lease := Lease(version + 1, true)), version + 1, 1, false,
                         false) == Out(Value(Done), m)
    requires m.lease == Lease(version + 1, true) && !job.surface.leaseExpired(m.world)
    ensures ExecuteRecovery(job, r, run, version)
            == Out(Value(Restored(version + 2)), m.(lease := Lease(version + 2, true)))
  {
    var begun := Started(run, r).(lease := Lease(version + 1, true));
    assert Heartbeat(job, Started(run, r), version) == Out(Value(version + 1), begun);
    RecoveryGoesOn(job, r.steps, begun, version + 1, m);
  }

  lemma Recovered(run: Run<nat>)
    requires run.world == 1 && run.lease == Lease(1, true) && run.outputs == map[]
    ensures ExecuteRecovery(ORDERED, AGAIN, run, 1)
            == Out(Value(Restored(3)), Acted(Started(run, AGAIN).(lease := Lease(2, true)), DISMISS)
                                         .(lease := Lease(3, true)))
  {
    var begun := Started(run, AGAIN).(lease := Lease(2, true));
    Dismissed(begun, 2);
    OneStepRecovery(ORDERED, AGAIN, run, 1, Acted(begun, DISMISS));
  }

  lemma FirstTime(run: Run<nat>, version: nat)
    requires run.world == 0 && run.lease == Lease(version, true) && run.outputs == map[] && run.uses == map[]
    ensures ExecuteStep(ORDERED, PAY_ONCE, run, version, 1, true, true)
            == Out(Value(Recover("again")), Acted(run, PAY_ONCE))
  {
    ClickGoesThrough(PAY_ONCE, run, version, true, true);
    NoticeShows(Acted(run, PAY_ONCE), version);
    EndsAtOnce(ORDERED, PAY_ONCE, run, version, true, true, Out(Value(Recover("again")), Acted(run, PAY_ONCE)));
  }

  lemma SecondTime(run: Run<nat>, version: nat)
    requires run.world == 2 && run.lease == Lease(version, true) && run.outputs == map[]
    ensures ExecuteStep(ORDERED, PAY_ONCE, run, version, 1, true, true) == Out(Value(Done), Acted(run, PAY_ONCE))
  {
    ClickGoesThrough(PAY_ONCE, run, version, true, true);
    NoticeIsGone(Acted(run, PAY_ONCE), version);
    EndsAtOnce(ORDERED, PAY_ONCE, run, version, true, true, Out(Value(Done), Acted(run, PAY_ONCE)));
  }

  /** The state after the jump, and when the loop ends. */
  function Returned(): Run<nat> {
    Run(2, Lease(4, true), map[], map["again" := 1], 0, false, false, {}, ["pay", "dismiss"],
        [ClickAt(PAY_ONCE, 1, 0), ClickAt(DISMISS, 2, 1)], [], 1, ["again"])
  }

  function Ordered(): Run<nat> {
    Run(3, Lease(5, true), map[], map["again" := 1], 0, false, false, {}, ["pay", "dismiss", "pay"],
        [ClickAt(PAY_ONCE, 1, 0), ClickAt(DISMISS, 2, 1), ClickAt(PAY_ONCE, 4, 2)], [], 2, ["again"])
  }

  lemma ReturnedIsActed()
    ensures
      var paid := Acted(Begin(0).(entries := 1), PAY_ONCE);
      Acted(Started(paid, AGAIN).(lease := Lease(2, true)), DISMISS).(lease := Lease(4, true)) == Returned()
  {
    var paid := Acted(Begin(0).(entries := 1), PAY_ONCE);
    assert paid.dispatched == [ClickAt(PAY_ONCE, 1, 0)];
    var dismissed := Acted(Started(paid, AGAIN).(lease := Lease(2, true)), DISMISS);
    assert dismissed.dispatched == [ClickAt(PAY_ONCE, 1, 0), ClickAt(DISMISS, 2, 1)];
  }

  lemma FirstMain()
    ensures ExecuteMain(ORDERED, PAY_ONCE, Begin(0), 1, 1)
            == Out(Value(Jump("pay", 3)), Returned().(lease := Lease(3, true)))
  {
    var entered := Begin(0).(entries := 1);
    FirstTime(entered, 1);
    Recovered(Acted(entered, PAY_ONCE));
    ReturnedIsActed();
    OneTrigger();
    RecoveryJumps(ORDERED, PAY_ONCE, Begin(0), 1, AGAIN, Acted(entered, PAY_ONCE), 3,
                  Returned().(lease := Lease(3, true)));
  }

  lemma FirstRound()
    ensures DriveOnce(ORDERED, Begin(0), 1, 0, (0, 1)) == Next(Returned(), 4, 0)
  {
    FirstMain();
    RoundSettles(ORDERED, Begin(0), 1, 0, (0, 1));
    assert ORDER.steps[..0] == [] && IndexOf(ORDER.steps, "pay") == Some(0);
    JumpLands(ORDERED, ExecuteMain(ORDERED, PAY_ONCE, Begin(0), 1, 1), 1, 0, 0);
  }

  lemma OrderedIsActed()
    ensures Acted(Returned().(entries := 2), PAY_ONCE).(lease := Lease(5, true)) == Ordered()
  {
  }

  lemma SecondRound()
    ensures DriveOnce(ORDERED, Returned(), 4, 0, (0, 1)) == Next(Ordered(), 5, 1)
  {
    var entered := Returned().(entries := 2);
    SecondTime(entered, 4);
    OrderedIsActed();
    DoneAdvances(ORDERED, Returned(), 4, 0, (0, 1), Acted(entered, PAY_ONCE));
  }

  lemma OrderingTwice()
    ensures Execute(ORDERED, 0) == Complete(ORDERED, Ordered())
  {
    FirstRound();
    DriveGoesOn(ORDERED, Begin(0), 1, 0, (0, 1));
    SecondRound();
    DriveGoesOn(ORDERED, Returned(), 4, 0, (0, 1));
  }

  lemma OrderSucceeds()
    ensures
      var end := Complete(ORDERED, Ordered());
      end.Ended? && end.result.Success? && end.final.effects == Ordered().effects
  {
  }

  lemma OrderIsAllowed()
    ensures Validated(ORDER)
  {
    assert RecoverySteps(ORDER.recoveries) == [DISMISS];
    assert StepIds(ORDER.steps)[0] == ORDER.recoveries[0].resumeAt;
    assert RecoveryIds(ORDER.recoveries)[0] == PAY_ONCE.recoveryRefs[0];
  }

  lemma OrderIsValid()
    ensures Validated(ORDER) && !Repeatable(PAY_ONCE) && !Past(ORDER, 0)
  {
    OrderIsAllowed();
    assert ORDER.recoveries[0].id in ORDER.steps[0].recoveryRefs && ORDER.recoveries[0].resumeAt == ORDER.steps[0].id;
  }

  /**
  A recovery may name the very step after which it is triggered. Then, with no retry anywhere and without any error
  of the surface, the run pays, dismisses the notice, and pays again; it ends as a success.
  */
  lemma ReturningRecoveryRepeatsTheEffect()
    ensures Validated(ORDER) && !Repeatable(PAY_ONCE) && !Past(ORDER, 0)
    ensures
      var end := Execute(ORDERED, 0);
      && end.Ended? && end.result.Success?
      && end.final.effects == ["pay", "dismiss", "pay"] && !AtMostOnce(ORDER, end.final.effects)
  {
    OrderIsValid();
    OrderingTwice();
    OrderSucceeds();
    TwiceIsTooOften(ORDER, ["pay", "dismiss", "pay"]);
  }
}
