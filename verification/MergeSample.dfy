/** A small merge in full: the hypotheses of the theorems about merging can be met, and the merge does what it shows. */
module MergeSample {
  import opened Prelude
  import opened Capability
  import opened Merge

  const RETRY := RetryPolicy(2, ["target_temporarily_absent"])

  const OPEN :=
    Step("step_01_click", StepBody(Operate(Click, ""), Some(Locator("Open", "open")), [], [Text("Account")], RETRY,
                                   ReadOnly), [], [], [])

  const READ :=
    Step("step_02_assert", StepBody(Assert(Text("Balance")), None, [], [Text("Balance")], RETRY, ReadOnly), [], [], [])

  const PRIMARY :=
    Artifact("bank.balance", "1.0.0", "bank", ReadOnly, "home", ["harbor"], "inputs", "outputs", [], [Route("/")],
             [OPEN, READ],
             [], [], [], All([Route("/"), Text("Balance")]), {"click", "assert"}, {"/"}, ReadOnly, None)

  function Marker(shown: string): Step {
    Step("step_02_assert", StepBody(Assert(Text(shown)), None, [], [Text(shown)], RETRY, ReadOnly), [], [], [])
  }

  const DISMISS :=
    Step("step_03_click", StepBody(Operate(Click, ""), Some(Locator("Close", "close")), [], [Text("Account")], RETRY,
                                   ReadOnly), [], [], [])

  const MISSING :=
    Scenario(OutcomeBranch, "not_found", "No such account",
             Verified(PRIMARY.(steps := [OPEN, Marker("Not found")]), Some(Observed(1, Text("Not found")))))

  const NOTICE :=
    Scenario(RecoveryBranch, "notice", "A notice covers the account",
             Verified(PRIMARY.(steps := [OPEN, Marker("Notice"), DISMISS]), Some(Observed(1, Text("Notice")))))

  const CLOSED := Recovery("notice", Text("Notice"), 1, Renamed([DISMISS], "notice"), "step_02_assert")

  const MERGED :=
    PRIMARY.(outcomes := [Branch("not_found", "No such account", Text("Not found"), ["step_01_click"])],
             recoveries := [CLOSED],
             steps := [OPEN.(outcomeRefs := ["not_found"], recoveryRefs := ["notice"]), READ])

  lemma MissingIsAdmitted()
    ensures Admit(PRIMARY, DraftOf(PRIMARY), MISSING)
         == Ok(DraftOf(PRIMARY).(outcomes := MERGED.outcomes, steps := [OPEN.(outcomeRefs := ["not_found"]), READ]))
  {
    var source := MISSING.result.artifact;
    assert SameOperation(PRIMARY.steps[0], source.steps[0]);
    assert SharedPrefix(PRIMARY.steps, source.steps) >= 1;
    assert SurfaceConditionsOf([Text("Account")]) == SurfaceConditions(Text("Account")) + SurfaceConditionsOf([]);
    assert OPEN.outcomeRefs + ["not_found"] == ["not_found"];
    assert PRIMARY.steps[0 := OPEN.(outcomeRefs := ["not_found"])] == [OPEN.(outcomeRefs := ["not_found"]), READ];
    assert PRIMARY.outcomes + MERGED.outcomes == MERGED.outcomes;
  }

  lemma NoticeIsAdmitted(d: Draft)
    requires d == DraftOf(PRIMARY).(outcomes := MERGED.outcomes, steps := [OPEN.(outcomeRefs := ["not_found"]), READ])
    ensures Admit(PRIMARY, d, NOTICE) == Ok(DraftOf(MERGED))
  {
    var source := NOTICE.result.artifact;
    assert SameOperation(PRIMARY.steps[0], source.steps[0]);
    assert SharedPrefix(PRIMARY.steps, source.steps) >= 1;
    var corrective := source.steps[2..];
    assert corrective == [DISMISS];
    assert ProvesDistinctSurface(corrective[0].body.postconditions[0], Text("Notice"));
    assert Restores(corrective, Text("Notice"));
    assert !TooRisky(corrective);
    assert d.steps[0].recoveryRefs + ["notice"] == ["notice"];
    assert d.steps[0 := d.steps[0].(recoveryRefs := ["notice"])] == MERGED.steps;
    assert d.recoveries + [CLOSED] == [CLOSED];
  }

  lemma PrimaryIsValid()
    ensures Validated(PRIMARY) && ForwardOnly(PRIMARY)
  {
    assert RecoverySteps(PRIMARY.recoveries) == [];
  }

  lemma ClosingStep(built: Artifact)
    requires built == Built(PRIMARY, DraftOf(MERGED), [MISSING, NOTICE])
    ensures CLOSED.steps[0].id != "step_01_click" && CLOSED.steps[0].id != "step_02_assert"
    ensures RecoverySteps(built.recoveries) == CLOSED.steps && |CLOSED.steps| == 1
    ensures StepAllowed(built, CLOSED.steps[0])
  {
    assert RecoverySteps(built.recoveries) == CLOSED.steps + RecoverySteps([]);
    assert CLOSED.steps[0].id[0] == 'r';
  }

  lemma MainSteps(built: Artifact)
    requires built == Built(PRIMARY, DraftOf(MERGED), [MISSING, NOTICE])
    ensures forall i :: 0 <= i < |built.steps| ==> StepAllowed(built, built.steps[i])
  {
    assert |built.steps| == 2;
    assert BranchCodes(built.outcomes)[0] == "not_found" && RecoveryIds(built.recoveries)[0] == "notice";
  }

  lemma ClosingRecovery(built: Artifact)
    requires built == Built(PRIMARY, DraftOf(MERGED), [MISSING, NOTICE])
    ensures built.recoveries == [CLOSED] && 1 <= CLOSED.maxUses <= 3 && |CLOSED.steps| == 1
    ensures CLOSED.steps[0].recoveryRefs == [] && Rank(CLOSED.steps[0].body.risk) < Rank(Sensitive)
  {
  }

  lemma SampleNames(built: Artifact)
    requires built == Built(PRIMARY, DraftOf(MERGED), [MISSING, NOTICE])
    ensures Unique(StepIds(built.steps + RecoverySteps(built.recoveries)))
    ensures Unique(RecoveryIds(built.recoveries)) && Unique(BranchCodes(built.outcomes + built.failures))
    ensures CLOSED.resumeAt in StepIds(built.steps)
  {
    ClosingStep(built);
    assert StepIds(built.steps + RecoverySteps(built.recoveries))
           == ["step_01_click", "step_02_assert", CLOSED.steps[0].id];
    assert BranchCodes(built.outcomes + built.failures) == ["not_found"];
    assert RecoveryIds(built.recoveries) == ["notice"];
    assert StepIds(built.steps)[1] == CLOSED.resumeAt;
  }

  lemma SampleIsValid(built: Artifact)
    requires built == Built(PRIMARY, DraftOf(MERGED), [MISSING, NOTICE])
    ensures Validated(built)
  {
    SampleNames(built);
    ClosingStep(built);
    MainSteps(built);
    ClosingRecovery(built);
  }

  /** A terminal branch and a recovery, merged into a two-step primary. */
  lemma SampleMerges()
    ensures Validated(PRIMARY) && ForwardOnly(PRIMARY)
    ensures Merged(PRIMARY, [MISSING, NOTICE]) == Ok(Built(PRIMARY, DraftOf(MERGED), [MISSING, NOTICE]))
  {
    var both := [MISSING, NOTICE];
    assert both[..1] == [MISSING] && both[..1][..0] == [];
    assert Fold(PRIMARY, []) == Ok(DraftOf(PRIMARY));
    MissingIsAdmitted();
    assert Fold(PRIMARY, both[..1]) == Admit(PRIMARY, DraftOf(PRIMARY), MISSING);
    NoticeIsAdmitted(Fold(PRIMARY, both[..1]).value);
    assert Fold(PRIMARY, both) == Ok(DraftOf(MERGED));
    PrimaryIsValid();
    SampleIsValid(Built(PRIMARY, DraftOf(MERGED), [MISSING, NOTICE]));
  }
}
