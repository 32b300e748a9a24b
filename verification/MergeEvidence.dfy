/** What a merge takes as evidence: exactly which scenarios it accepts, said on their traces alone. */
module MergeEvidence {
  import opened Prelude
  import opened Capability
  import opened Merge

  /** Two steps did the same thing to the same control at the same risk; how the control is described is prose. */
  predicate DidTheSame(a: StepBody, b: StepBody) {
    && a.action == b.action && a.risk == b.risk
    && (a.target.Some? <==> b.target.Some?)
    && (a.target.Some? ==> a.target.value.identity == b.target.value.identity)
  }

  predicate SharesContract(primary: Artifact, evidence: Artifact) {
    && evidence.capability == primary.capability && evidence.family == primary.family
    && evidence.entryPoint == primary.entryPoint
    && evidence.inputs == primary.inputs && evidence.outputs == primary.outputs
  }

  /** Something that is there: a text in any form, or an element in any state but absent or hidden. */
  predicate Present(c: Condition) {
    match c
    case Text(_) => true
    case RenderedText(_) => true
    case VisualText(_) => true
    case Element(_, state) => state.Exists? || state.Visible? || state.Enabled? || state.Disabled?
    case _ => false
  }

  /** The condition is one of the facts that alls and anys are made of here. */
  predicate MadeOf(c: Condition, fact: Condition) {
    match c
    case All(items) => exists i :: 0 <= i < |items| && MadeOf(items[i], fact)
    case Any(items) => exists i :: 0 <= i < |items| && MadeOf(items[i], fact)
    case _ => c == fact
  }

  /** Whichever way the condition comes true, something other than the blocker shows. */
  ghost predicate LeavesBlocker(c: Condition, blocker: Condition) {
    forall facts: Condition -> bool :: HoldsUnder(c, facts) ==> ShowsDistinct(c, blocker, facts)
  }

  /** The evidence did what the primary does up to the step after which it asserts what it saw. */
  predicate SharesPath(primary: Artifact, evidence: Artifact, seen: Observed) {
    && seen.after <= |primary.steps| && seen.after < |evidence.steps|
    && (forall k :: 0 <= k < seen.after ==> DidTheSame(primary.steps[k].body, evidence.steps[k].body))
    && evidence.steps[seen.after].body.action == Assert(seen.condition)
  }

  /** A terminal scenario stops at what it saw, and the step before it does not already establish that. */
  predicate EndsThere(primary: Artifact, evidence: Artifact, seen: Observed)
    requires seen.after <= |primary.steps|
  {
    && |evidence.steps| == seen.after + 1
    && forall c <- primary.steps[seen.after - 1].body.postconditions :: !MadeOf(c, seen.condition)
  }

  /** A recovery goes on with low-risk steps, one of which leaves the blocker, to a step of the primary. */
  ghost predicate WorksAround(primary: Artifact, evidence: Artifact, seen: Observed)
    requires seen.after < |evidence.steps|
  {
    var corrective := evidence.steps[seen.after + 1..];
    && seen.after < |primary.steps| && corrective != []
    && (forall step <- corrective :: step.body.risk in {ReadOnly, Reversible})
    && exists step <- corrective, c <- step.body.postconditions :: LeavesBlocker(c, seen.condition)
  }

  ghost predicate Acceptable(primary: Artifact, s: Scenario) {
    && s.result.Verified? && s.result.branch.Some?
    && var evidence, seen := s.result.artifact, s.result.branch.value;
    && SharesContract(primary, evidence) && SharesPath(primary, evidence, seen) && Present(seen.condition)
    && if s.kind.RecoveryBranch? then WorksAround(primary, evidence, seen) else EndsThere(primary, evidence, seen)
  }

  // ---------------------------------------------------------------- the tests of the merge mean this

  lemma {:induction false} PrefixReaches(a: seq<Step>, b: seq<Step>, n: nat)
    ensures n <= SharedPrefix(a, b) <==>
            n <= |a| && n <= |b| && forall k :: 0 <= k < n ==> DidTheSame(a[k].body, b[k].body)
  {
    var m := SharedPrefix(a, b);
    if m < n <= |a| && n <= |b| {
      assert !SameOperation(a[m], b[m]);
      assert !DidTheSame(a[m].body, b[m].body);
    }
    if n <= m {
      forall k | 0 <= k < n ensures DidTheSame(a[k].body, b[k].body) {
        assert SameOperation(a[k], b[k]);
      }
    }
  }

  lemma {:induction false} FactIsListed(c: Condition, fact: Condition)
    requires Present(fact)
    ensures fact in SurfaceConditions(c) <==> MadeOf(c, fact)
    decreases c, 0
  {
    match c
    case All(items) => FactIsListedAmong(items, fact);
    case Any(items) => FactIsListedAmong(items, fact);
    case _ =>
  }

  lemma {:induction false} FactIsListedAmong(items: seq<Condition>, fact: Condition)
    requires Present(fact)
    ensures fact in SurfaceConditionsOf(items) <==> exists i :: 0 <= i < |items| && MadeOf(items[i], fact)
    decreases items, 1
  {
    if items != [] {
      FactIsListed(items[0], fact);
      FactIsListedAmong(items[1..], fact);
      if MadeOf(items[0], fact) {
      } else if exists i :: 0 <= i < |items| && MadeOf(items[i], fact) {
        var i :| 0 <= i < |items| && MadeOf(items[i], fact);
        assert MadeOf(items[1..][i - 1], fact);
      } else {
        assert forall i :: 0 <= i < |items[1..]| ==> items[1..][i] == items[i + 1];
      }
    }
  }

  lemma RestoringLeaves(steps: seq<Step>, blocker: Condition)
    ensures Restores(steps, blocker) <==>
            exists step <- steps, c <- step.body.postconditions :: LeavesBlocker(c, blocker)
  {
    forall c: Condition
      ensures ProvesDistinctSurface(c, blocker) <==> LeavesBlocker(c, blocker)
    {
      RestorationTestIsExact(c, blocker);
    }
    if Restores(steps, blocker) {
      var k, p :| 0 <= k < |steps| && 0 <= p < |steps[k].body.postconditions|
                  && ProvesDistinctSurface(steps[k].body.postconditions[p], blocker);
      assert steps[k] in steps && steps[k].body.postconditions[p] in steps[k].body.postconditions;
    }
    if exists step <- steps, c <- step.body.postconditions :: LeavesBlocker(c, blocker) {
      var step, c :| step in steps && c in step.body.postconditions && LeavesBlocker(c, blocker);
      var k :| 0 <= k < |steps| && steps[k] == step;
      var p :| 0 <= p < |step.body.postconditions| && step.body.postconditions[p] == c;
      assert ProvesDistinctSurface(steps[k].body.postconditions[p], blocker);
    }
  }

  lemma LowRisk(steps: seq<Step>)
    ensures !TooRisky(steps) <==> forall step <- steps :: step.body.risk in {ReadOnly, Reversible}
  {
    if forall step <- steps :: step.body.risk in {ReadOnly, Reversible} {
      assert forall k :: 0 <= k < |steps| ==> steps[k] in steps;
    }
  }

  /** Hanging a branch on a draft that kept the primary's steps succeeds exactly for scenarios of the right form. */
  lemma AttachesExactly(primary: Artifact, d: Draft, s: Scenario, evidence: Artifact, seen: Observed)
    requires Grown(primary, d) && seen.after <= |primary.steps| && seen.after < |evidence.steps|
    requires Present(seen.condition) && (!s.kind.RecoveryBranch? ==> |evidence.steps| == seen.after + 1)
    ensures Attach(d, s, seen.after, seen.condition, evidence.steps[seen.after + 1..]).Ok? <==>
            if s.kind.RecoveryBranch? then WorksAround(primary, evidence, seen) else EndsThere(primary, evidence, seen)
  {
    assert StepGrown(primary, d, seen.after - 1);
    var posts, corrective := primary.steps[seen.after - 1].body.postconditions, evidence.steps[seen.after + 1..];
    FactIsListedAmong(posts, seen.condition);
    RestoringLeaves(corrective, seen.condition);
    LowRisk(corrective);
  }

  /** The tests of one scenario, one after the other. */
  lemma AdmitTests(primary: Artifact, d: Draft, s: Scenario)
    requires |d.steps| == |primary.steps|
    ensures Admit(primary, d, s) != Err(InvalidArtifact)
    ensures Admit(primary, d, s).Ok? ==> s.result.Verified? && s.result.branch.Some?
    ensures s.result.Verified? && s.result.branch.Some? ==>
              var evidence, seen := s.result.artifact, s.result.branch.value;
              Admit(primary, d, s).Ok? <==>
                && SharesContract(primary, evidence) && seen.after <= SharedPrefix(primary.steps, evidence.steps)
                && seen.after < |evidence.steps| && evidence.steps[seen.after].body.action == Assert(seen.condition)
                && Distinctive(seen.condition) && (s.kind.RecoveryBranch? || |evidence.steps| == seen.after + 1)
                && Attach(d, s, seen.after, seen.condition, evidence.steps[seen.after + 1..]).Ok?
  {
  }

  lemma DistinctiveIsPresent(c: Condition)
    ensures Distinctive(c) <==> Present(c)
  {
  }

  lemma AdmitsExactly(primary: Artifact, d: Draft, s: Scenario)
    requires Grown(primary, d)
    ensures Admit(primary, d, s).Ok? <==> Acceptable(primary, s)
    ensures Admit(primary, d, s) != Err(InvalidArtifact)
  {
    AdmitTests(primary, d, s);
    if s.result.Verified? && s.result.branch.Some? {
      var evidence, seen := s.result.artifact, s.result.branch.value;
      PathIsShared(primary, evidence, seen);
      DistinctiveIsPresent(seen.condition);
      if SharesPath(primary, evidence, seen) && Present(seen.condition)
        && (s.kind.RecoveryBranch? || |evidence.steps| == seen.after + 1)
      {
        AttachesExactly(primary, d, s, evidence, seen);
      }
    }
  }

  lemma PathIsShared(primary: Artifact, evidence: Artifact, seen: Observed)
    ensures SharesPath(primary, evidence, seen) <==>
              && seen.after <= SharedPrefix(primary.steps, evidence.steps) && seen.after < |evidence.steps|
              && evidence.steps[seen.after].body.action == Assert(seen.condition)
  {
    PrefixReaches(primary.steps, evidence.steps, seen.after);
  }

  /** The evidence of a merge is found sufficient if and only if that of each scenario is. */
  lemma {:induction false} FoldsExactly(primary: Artifact, scenarios: seq<Scenario>)
    ensures Fold(primary, scenarios).Ok? <==> forall s <- scenarios :: Acceptable(primary, s)
    ensures Fold(primary, scenarios) != Err(InvalidArtifact)
  {
    if scenarios != [] {
      var rest, last := scenarios[..|scenarios| - 1], scenarios[|scenarios| - 1];
      FoldsExactly(primary, rest);
      if Fold(primary, rest).Ok? {
        FoldGrows(primary, rest);
        AdmitsExactly(primary, Fold(primary, rest).value, last);
      }
      assert scenarios == rest + [last];
    }
  }

  /**
  A merge goes through exactly on evidence that shares the primary's contract, did step for step what the primary
  does up to the very step after which it asserts something that is there, and then stops at what the primary does
  not already establish there, or works around it at low risk; and if the whole is then a valid artifact.
  */
  lemma MergesExactly(primary: Artifact, scenarios: seq<Scenario>)
    ensures (forall s <- scenarios :: Acceptable(primary, s)) <==>
            Merged(primary, scenarios).Ok? || Merged(primary, scenarios) == Err(InvalidArtifact)
    ensures Merged(primary, scenarios) == Err(InvalidArtifact) ==>
              scenarios != [] || primary.outcomes != [] || primary.failures != [] || primary.recoveries != []
  {
    FoldsExactly(primary, scenarios);
  }

  /** A merge is allowed the routes of the primary and of the evidence, and the actions of its steps, and no more. */
  lemma RoutesAreOfTheEvidence(primary: Artifact, scenarios: seq<Scenario>)
    requires Merged(primary, scenarios).Ok? && scenarios != []
    ensures
      var merged := Merged(primary, scenarios).value;
      && merged.hash == None
      && (forall route :: route in merged.allowedRoutes <==>
            || route in primary.allowedRoutes
            || exists s <- scenarios :: s.result.Verified? && route in s.result.artifact.allowedRoutes)
      && (forall kind :: kind in merged.allowedActions <==>
            || kind in primary.allowedActions
            || exists r <- merged.recoveries, step <- r.steps :: ActionKind(step.body.action) == kind)
  {
    NothingElseIsAdded(primary, scenarios);
    SomeKind(scenarios);
  }

  lemma SomeKind(scenarios: seq<Scenario>)
    requires scenarios != []
    ensures CountKind(scenarios, OutcomeBranch) + CountKind(scenarios, FailureBranch)
            + CountKind(scenarios, RecoveryBranch) > 0
  {
    var last := scenarios[|scenarios| - 1];
    assert CountKind(scenarios, last.kind) > 0;
  }
}
